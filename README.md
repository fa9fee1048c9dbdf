# AirGradient ingestion endpoint, modelled in Dafny

The modelled system is a single PHP script, `index.php`. AirGradient air-quality
sensors POST their JSON readings to it. The script does the following:

- It reads the `path` query parameter. If the parameter is missing, it answers 501.
- It splits the path on `/`. If the first segment is `sensors`, it splits the second
  segment on `:` and takes the second token as the sensor *instance*.
- It decodes the request body. If there is no data, it answers 501 with
  `No data in POST request.`.
- It sets the reading's `instance` key and re-encodes the reading.
- It makes sure the `sensors` directory exists.
- It replaces `sensors/<instance>.json` with the encoded record. If that write fails,
  it answers 500 with `Could not write file.`.

The model has four modules:

- `Explode` (`explode.dfy`) models PHP's `explode` on a one-character separator as
  `Split`. Its contract says the result is never empty, no piece contains the
  separator, and joining the pieces gives back the input. Lemmas give the reverse
  round trip (`SplitJoin`) and splitting at the first separator (`SplitAtFirst`).
- `Instance` (`instance.dfy`) derives the instance from the path. `ExtractInstance`
  returns `None` wherever the script leaves `$instance` unset or `null`. It is proved equal to
  `ScanInstance`, an independent definition that scans for separators instead of
  splitting.
- `Record` (`record.dfy`) holds the decoded reading. The reading is a map from keys
  to opaque JSON values. `HasData` is the truth test of line 26. `WithInstance` is
  the assignment of line 28.
- `Handler` (`handler.dfy`) has two parts:
  - `Handled` is the whole script as a function from (filesystem, request,
    environment) to (new filesystem, response).
  - The class `Endpoint` holds the filesystem: a map from file name to contents,
    plus a flag saying whether `sensors/` exists. Its method `Handle` runs the
    script's steps in order, with the script's early returns. It is proved to
    agree with `Handled`.

  Lemmas about `Handled` state the response table, the single-file update and the
  overwrite semantics.

The environment is passed in as parameters:

- `json_encode` is a function parameter (`Env.encode`). `None` stands for its
  `false` result. `file_put_contents` writes that `false` as the empty string, so
  it writes 0 bytes and the script answers 500.
- `mkdir` succeeding is the flag `Env.mkdirOk`.
- The filesystem accepting the write is the flag `Env.writeOk`.
- A write succeeds only if the directory exists and `writeOk` holds. The script
  then reports success only if the number of bytes written is non-zero.

## The unset instance

The script writes the default `'abc'` to `$sensorid` (index.php:8). That variable is
never read. The comment at index.php:7 says these defaults are there so that a file
is written even when parts fail, but the code never gives `$instance` a default.
`$instance` is assigned only on the `sensors` branch (index.php:20-23). For any other
path it is unset. For `path=sensors`, or a second segment without `:`, line 22 runs
and assigns `null` from the missing index 1. Either way `$instance` is unset or
`null`. PHP then stores `null` under `"instance"` and builds the file name
`sensors/.json`. The model follows the code:

- `ExtractInstance` returns `None`.
- `InstanceValue(None)` is JSON `null`.
- `OutputFile(None)` is `sensors/.json`.

`NonSensorsPathExample` states this behaviour. `OtherInstanceUntouched` accounts
for it: a request with an unset instance writes the same file as the instance `""`.

## Model

| member | source | states |
|---|---|---|
| `Explode.Split` | index.php:17-21 | `explode` never returns an empty list; no piece contains the separator; joining the pieces with the separator gives back the input |
| `Explode.SplitJoin` | index.php:17-21 | pieces free of the separator are recovered exactly by exploding their implosion (the second round trip) |
| `Explode.SplitAtFirst` | index.php:17-21 | the first piece is the text before the first separator (or all of it when there is none), and the other pieces are those of the text after it |
| `Explode.SplitConcat` | index.php:17-21 | exploding `a + sep + b` gives the pieces of `a` followed by the pieces of `b` |
| `Instance.ExtractInstance` | index.php:17-23 | a set instance comes from a path beginning with `sensors/` and contains no `:`; its full meaning is carried by `ExtractMatchesScan` (equal to the scanning definition) and `ExtractNone` (exactly when it is unset) |
| `Instance.ExtractMatchesScan` | index.php:17-23 | the instance is `Some` exactly when the path begins with `sensors/` and its second segment has a `:`, and it is then the text after that segment's first `:` up to the next `:` or the end of the segment; otherwise `None` |
| `Instance.ExtractNone` | index.php:17-23 | the instance stays unset if and only if the path does not begin with `sensors/` or its second segment has no `:` |
| `Instance.ExtractedHasNoSeparators` | index.php:17-23 | an extracted instance contains neither `/` nor `:` |
| `Instance.ExtractWellFormed` | index.php:17-23 | `sensors/<id>:<instance>` followed by more `:` tokens and more `/` segments names `<instance>`; the extra tokens and segments are ignored |
| `Instance.ExtractExample` | index.php:17-23 | `sensors/id:a:b/x` names `a`, and `sensors/id:unit7` names `unit7` |
| `Record.HasData` | index.php:26 | the decoded body counts as data exactly when it decoded to an array with at least one key; an undecodable body and `{}` are both false, as PHP's truth test makes them |
| `Record.InstanceValue` | index.php:28 | the stored value is `null` exactly when `$instance` is unset or `null`, and the instance text otherwise |
| `Record.WithInstance` | index.php:28 | the record has the reading's keys plus `instance`; `instance` holds the instance's value; every other key keeps its value |
| `Record.WithInstanceSize` | index.php:28 | the record has one more key than the reading, unless the reading already had an `instance` key |
| `Record.LastInstanceWins` | index.php:28 | setting the instance twice keeps only the later value, with no merge |
| `Record.WithInstanceOnlyAddsKey` | index.php:28 | apart from the `instance` key, the record equals the reading |
| `Handler.OutputFile` | index.php:38-44 | the file name starts with `sensors/` and ends with `.json`, and the instance text (empty when unset) is exactly what lies between the two |
| `Handler.OutputFileInjective` | index.php:44 | two instances share an output file if and only if they are equal |
| `Handler.OutputFileInSensorsDir` | index.php:17-44 | the file written always lies directly inside `sensors/`, because the name after the prefix has no `/` |
| `Handler.OutputText` | index.php:29-45 | the text written is the encoded record, or the empty string when `json_encode` gave `false` |
| `Handler.Mkdir` | index.php:39-41 | the directory exists afterwards exactly when it existed before or `mkdir` succeeded; the files are unchanged |
| `Handler.FilePutContents` | index.php:45 | the write succeeds exactly when the directory exists and the filesystem accepts it; then the named file is replaced by the data and the data's length is returned; otherwise the store is unchanged and the result is `false`; the directory is never affected |
| `Handler.Written` | index.php:45 | the result of the write counts as a failure exactly when it is `false` or 0 |
| `Handler.Handled` | index.php:12-49 | every response is one of the four listed for `Outcomes`; a 501 leaves the store as it was; no file other than the request's output file is created. Its full behaviour is carried by `Outcomes`, `SuccessWritesRecord` and `WriteFailure` |
| `Handler.Endpoint.MakeDir` | index.php:38-41 | the directory exists afterwards if it existed before or `mkdir` succeeded; the files are unchanged |
| `Handler.Endpoint.PutContents` | index.php:45 | when the directory exists and the write is accepted, exactly the named file is replaced by the data and its length is returned; otherwise nothing changes and the result is `false` |
| `Handler.Endpoint.Handle` | index.php:12-49 | the step-by-step handler, with its early returns, leaves the filesystem and returns the response that `Handled` gives for the old filesystem |
| `Handler.MissingPath` | index.php:12-15 | without `path`: status 501, empty body, filesystem untouched |
| `Handler.NoData` | index.php:26-35 | with `path` but no truthy decoded body: status 501, body `No data in POST request.`, no file or directory touched |
| `Handler.Outcomes` | index.php:12-49 | every response is one of four: 501 with an empty body, 501 with `No data in POST request.`, 500 with `Could not write file.`, or 200 with an empty body; status 501 if and only if `path` is missing or there is no data; status 200 if and only if there is data, the directory exists or is created, the write is accepted and the encoded text is non-empty |
| `Handler.SuccessWritesRecord` | index.php:26-49 | on 200, the directory exists and exactly one entry changes: `sensors/<instance>.json` holds the encoding of the reading with `instance` set; all other files keep their contents |
| `Handler.WriteFailure` | index.php:44-49 | on 500, the body is `Could not write file.`; the directory exists if it existed or `mkdir` succeeded; the files are unchanged unless the write was accepted with nothing to write (the encoded text is empty, as when `json_encode` gives `false`), in which case that one file is emptied |
| `Handler.SecondWriteReplacesFirst` | index.php:44-45 | two successful requests for the same instance leave that file with only the second record; the first leaves no trace in the files, and the directory exists afterwards |
| `Handler.OtherInstanceUntouched` | index.php:44-45 | a request for a different instance leaves another instance's file unchanged |
| `Handler.HappyPathExample` | index.php:17-49 | `path=sensors/id:unit7` with body `{"pm02":12}` writes `sensors/unit7.json` holding `{"pm02":12,"instance":"unit7"}` and answers 200 with an empty body |
| `Handler.NonSensorsPathExample` | index.php:8-44 | `path=other/thing` leaves the instance unset (no `abc` fallback), and a successful request writes `sensors/.json` with `"instance": null` |

## Left out

- HTTP input and output are not modelled. The script reads `$_GET` and `php://input`, calls `print` and sets `http_response_code`. The model takes the request as the inputs of `Handled` and returns the response status and body.
- The internals of `json_decode` and `json_encode` are not modelled. The decoded body is an input, and the encoder is a function parameter.
- JSON bodies that decode to a scalar or to a list are not modelled. Only objects, whose keys are strings, are. For a truthy scalar, line 28 would index into a non-array.
- A `path` parameter sent as an array (`path[]=…`) is not modelled. PHP's `explode` would raise a type error on it.
- PHP's warnings about undefined variables and indexes are not modelled. The unset instance is `None`. Its effects on the record and the file name are stated explicitly, as described above.
- `Handler.Endpoint.PutContents`: the byte count is the length of the string in characters. Only zero versus non-zero affects the outcome.
- Partial writes are not modelled. A write that is not accepted leaves the filesystem unchanged.
- `is_dir` finding a regular file named `sensors`, and `mkdir` permissions, are not modelled. The directory is one boolean.
- The unused defaults `$sensorid = 'abc'` and `$json_output = ''` (index.php:8-9) are not modelled. Neither is read on any path that reaches the write.
- The order of the record's keys is not modelled, and so neither is the exact text of the file. A PHP array keeps insertion order, and line 28 adds `instance` last when it is new, so `json_encode` writes the keys in that order. The model's `Payload` is an unordered map. Two bodies that differ only in key order are one request in the model, though the script writes different text for them.
- File names that PHP rejects are not modelled. An instance containing a NUL byte (`path=sensors/id:a%00b`) makes `file_put_contents` at index.php:45 throw an error on PHP 8, so the request ends in a fatal error and `Could not write file.` is never printed. The model, given `writeOk`, writes that name and answers 200.
- The model assumes the web server buffers output. The script calls `print` before `http_response_code` (index.php:32-33 and 46-47). Without output buffering, the `print` would send the headers, and so status 200, before the status is set.
- Concurrent requests racing on the same file (last writer wins) are not modelled. The model handles requests one at a time.
