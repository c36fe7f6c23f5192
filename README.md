# Partition registrar, modelled in Dafny

This project models the partition registrar of the CodeCommit event-log
pipeline: the AWS Lambda handler in `lambdas/create-partition/index.py`. It
receives a batch of S3 object-created notifications. For each record, it
turns the object key `table/year/month/day/hour/object` into a Glue
`PartitionInput` and calls Glue `create_partition` for that table.

The model has five modules:

- `Wrappers` (wrappers.dfy): `Option` and `Result`. A `Failure` stands for a Python exception.
- `Segments` (segments.dfy): Python's `str.split(sep)` with an explicit separator, and its inverse `sep.join`. Empty segments are kept, so n separators give n + 1 segments.
- `Schemas` (schemas.dfy): the constant `table_column_schemas`. It has five tables, with 19, 23, 11, 12 and 12 columns, transcribed from the source in order.
- `Partition` (partition.dfy): the per-record transformation, as pure functions.
  - `ParseKey` is the six-way tuple unpacking of `key.split("/")`; it fails with `UnpackError` otherwise.
  - `PartitionDate` and `PartitionLocation` build the date value and the location string.
  - `Descriptor` builds the storage descriptor; all its fields except `columns` and `location` are constants.
  - `BuildRequest` runs the whole step for one record. It fails with `UnpackError` first, then with `UnknownTable` (the `KeyError` of the schema lookup).
- `Registrar` (registrar.dfy): the batch loop.
  - `Handler` is a method with a `while` loop over the records.
  - `CreatePartition` is an abstract, nondeterministic catalog step: the call is `Created` or `Rejected`.
  - `Handler` records a trace of attempts. It stops with `Raised(index, error)` as soon as a record's key or table fails, because that exception escapes the handler.
  - `Handler` is proved against the specification function `Handle(records) = Replay(Outcomes(records))`: a fold over the per-record results.

The location format string `'s3://{}/{}/{}/{}/{}'` has five placeholders but
receives six arguments. Python ignores the extra `hour`, so the location is the
day directory. The model keeps this behaviour. `LocationSegments` and
`HoursShareLocation` state it: every hour partition of a day points at the
same day directory, while the partition values differ.

`repository_state_change` has 19 columns. The last one, `conflictDetailsLevel`
(index.py:84), is a separate column from `conflictDetailLevel` (index.py:40),
and the model keeps both.

## Model

| member | source | states |
|---|---|---|
| `Segments.Split` | lambdas/create-partition/index.py:336 | `key.split("/")` yields at least one segment, and no segment contains the separator |
| `Segments.JoinSplit` | lambdas/create-partition/index.py:336 | splitting loses nothing: joining the segments with the separator gives the key back |
| `Segments.SplitJoin` | lambdas/create-partition/index.py:336 | splitting inverts joining for separator-free segments, empty segments included |
| `Segments.SplitLength` | lambdas/create-partition/index.py:336 | a string with n separators splits into exactly n + 1 segments (no collapsing of empty segments) |
| `Segments.SplitUnique` | lambdas/create-partition/index.py:336 | the split is the only separator-free decomposition that joins back to the string |
| `Segments.SplitFirst` | lambdas/create-partition/index.py:336 | a separator-free prefix followed by the separator becomes its own first segment |
| `Segments.SplitSingle` | lambdas/create-partition/index.py:336 | a string without the separator is a single segment |
| `Schemas.SchemaTableShape` | lambdas/create-partition/index.py:9-328 | the schema table has exactly the five known table names as keys, with 19, 23, 11, 12 and 12 columns |
| `Partition.ParseKeyOutcome` | lambdas/create-partition/index.py:336 | unpacking succeeds iff the key holds exactly five `/`; then the six segments are `/`-free and spell the key; otherwise it raises with the actual segment count |
| `Partition.ParseKeyPath` | lambdas/create-partition/index.py:336 | any six `/`-free segments, empty ones included, come back out of their joined key unchanged |
| `Partition.DateSegments` | lambdas/create-partition/index.py:339 | the date is year, month and day verbatim: splitting it on `-` gives them back whenever none of them holds a `-` |
| `Partition.LocationSegments` | lambdas/create-partition/index.py:342 | for `/`-free inputs the location splits into exactly those seven segments: the hour never appears, and there is no trailing slash |
| `Partition.LocationIsDayDirectory` | lambdas/create-partition/index.py:342 | the object's own URI is the location followed by `/hour/object` |
| `Partition.HoursShareLocation` | lambdas/create-partition/index.py:342-353 | two objects of the same table and day but different hours get identical storage descriptors and different partition values |
| `Partition.BuildRequestOutcome` | lambdas/create-partition/index.py:336-352 | a record yields a request iff its key has six segments and its first segment is a known table; a wrong segment count raises `UnpackError` before the table is looked at; an unknown table raises `UnknownTable` |
| `Partition.BuildRequestOfKey` | lambdas/create-partition/index.py:336-373 | for every bucket and six `/`-free segments of a known table, the request targets `TableName = table` with values `[year-month-day, hour]`, the table's columns, and the day-directory location of the object |
| `Partition.BuildRequestParts` | lambdas/create-partition/index.py:336-373 | the converse of `BuildRequestOfKey`: every record that yields a request has a key made of six `/`-free segments of a known table, and the request is the one those segments determine |
| `Partition.DescriptorConstantFields` | lambdas/create-partition/index.py:350-371 | any two descriptors agree on all fields but `Columns` and `Location`; those fields are -1 buckets, uncompressed, text input and Hive output formats, the JSON SerDe with `serialization.format = "1"`, no bucket, sort or skew columns, no parameters, and not stored as sub-directories |
| `Registrar.Replay` | lambdas/create-partition/index.py:331-379 | a run that returns made one request per record; a run that raised at record k made exactly k requests, with k inside the batch |
| `Registrar.CreatePartition` | lambdas/create-partition/index.py:377 | the catalog call is made with the given database name, table and partition, and it either creates the partition or raises; which one is left open |
| `Registrar.Handler` | lambdas/create-partition/index.py:330-379 | the trace holds one attempt per record that reached the `try`; the i-th attempt carries the i-th request of `Handle(records)` and the configured database name; the termination is that of `Handle(records)`, whatever the catalog answered; an attempt fails without a call exactly when the database name is missing |
| `Registrar.TryCreatePartition` | lambdas/create-partition/index.py:376-379 | the `try` block always yields an attempt for the request with the configured database name; it reaches the catalog exactly when the name is set, and every exception is swallowed |
| `Registrar.ReplayAfterRaise` | lambdas/create-partition/index.py:331-352 | once a record has raised, the records after it change nothing |
| `Registrar.ReplayExtends` | lambdas/create-partition/index.py:331-379 | while records return, the requests made so far stay a prefix of all the requests made: later records only append |
| `Registrar.ReplayReturnsIff` | lambdas/create-partition/index.py:331-379 | a run returns iff no record raised |
| `Registrar.ReplayInOrder` | lambdas/create-partition/index.py:331-377 | the i-th request of a run is the i-th record's request |
| `Registrar.ReplayRaisesAtFirstFailure` | lambdas/create-partition/index.py:331-352 | a run raises at record k with error e iff record k is the first to raise and raises e |
| `Registrar.HandleReturnsIff` | lambdas/create-partition/index.py:331-379 | the handler returns normally iff every key has six segments and names a known table; it then made exactly one request per record |
| `Registrar.HandleRequestsInOrder` | lambdas/create-partition/index.py:331-377 | the handler's requests follow the records in arrival order, one per record |
| `Registrar.HandleRaisesAtFirstFailure` | lambdas/create-partition/index.py:331-352 | the handler raises at the first record whose key does not unpack or whose table is unknown; that record and all later ones reach no catalog call |
| `Registrar.HandleRepeatedRecord` | lambdas/create-partition/index.py:376-379 | the same record twice in one batch makes two identical requests and the handler still returns |

## Left out

- The boto3 Glue client and what `create_partition` really does, including its rejection of duplicate partitions. It is a network call into a library outside the repository, so `CreatePartition` is a nondeterministic step. The model does not say which attempts Glue accepts.
- `os.environ["DATABASE_NAME"]` is the `databaseName` parameter of `Handler`. `None` stands for the unset variable, whose `KeyError` is raised inside the `try` and swallowed.
- `traceback.print_exc()` writes to the log only, so it is not modelled. A swallowed error shows up in the trace as the outcome `Rejected` or `DatabaseNameMissing`.
- Navigating the event dictionary is not modelled: a record is the pair `(bucket, key)`. A missing `Records`, `s3`, `bucket` or `object` field would be a plain `KeyError` on malformed input from S3.
- Object keys are taken as given. The source does not URL-decode them, and neither does the model.
- The Lambda runtime (invocation, timeouts, the `context` argument) is not modelled.
