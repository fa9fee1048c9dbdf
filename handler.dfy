/**
 * The request handler of index.php: the early returns on a missing `path`
 * (lines 12-15) and on a body without data (lines 26-35), the output
 * directory (lines 38-41) and the write of `sensors/<instance>.json`
 * (lines 44-49). The filesystem is a map from file name to contents.
 */
module Handler {
  import opened Options
  import opened Instance
  import opened Record

  /** The HTTP status and the printed body text. */
  datatype Response = Response(status: int, body: string)

  /** The part of the filesystem the script touches. */
  datatype Store = Store(files: map<string, string>, dirExists: bool)

  /**
   * One request: the `path` query parameter, if set, and the result of
   * decoding the request body (`None` when it is not a JSON object).
   */
  datatype Request = Request(path: Option<string>, body: Option<Payload>)

  /**
   * What the environment decides: the result of `json_encode` (`None` for
   * `false`), whether `mkdir` succeeds, and whether the filesystem accepts
   * the write.
   */
  datatype Env = Env(encode: Payload -> Option<string>, mkdirOk: bool, writeOk: bool)

  const SensorsDir: string := "sensors"
  const NoDataMessage: string := "No data in POST request."
  const WriteFailedMessage: string := "Could not write file."

  /**
   * The output file of line 44. An unset instance concatenates as the empty
   * string. The instance can be read back from the name, between the
   * directory prefix and the extension.
   */
  function OutputFile(instance: Option<string>): (name: string)
    ensures |name| >= 13
    ensures name[..8] == SensorsDir + "/"
    ensures name[|name| - 5..] == ".json"
    ensures name[8..|name| - 5] == instance.GetOr("")
  {
    SensorsDir + "/" + instance.GetOr("") + ".json"
  }

  /** Two instances share a file exactly when they are equal. */
  lemma OutputFileInjective(a: string, b: string)
    ensures OutputFile(Some(a)) == OutputFile(Some(b)) <==> a == b
  {
  }

  /** The file always lies directly inside the `sensors` directory. */
  lemma OutputFileInSensorsDir(path: string)
    ensures var name := OutputFile(ExtractInstance(path));
      name[..8] == SensorsDir + "/" && '/' !in name[8..]
  {
    var instance := ExtractInstance(path);
    var name := OutputFile(instance);
    if instance.Some? {
      ExtractedHasNoSeparators(path);
    }
    assert name[8..] == instance.GetOr("") + ".json";
  }

  /** What `file_put_contents` is given: `false` from `json_encode` is written as "". */
  function OutputText(encoded: Option<string>): (text: string)
    ensures encoded.Some? ==> text == encoded.value
    ensures encoded.None? ==> text == ""
  {
    encoded.GetOr("")
  }

  /** Lines 39-41: create the directory when it is missing. */
  function Mkdir(st: Store, mkdirOk: bool): (st': Store)
    ensures st'.dirExists == (st.dirExists || mkdirOk)
    ensures st'.files == st.files
  {
    if st.dirExists then st else st.(dirExists := mkdirOk)
  }

  /**
   * `file_put_contents(name, data)`: when the directory exists and the
   * filesystem accepts the write, the file is replaced by `data` and the
   * number of characters written is returned; otherwise nothing changes and
   * the result is `false` (None).
   */
  function FilePutContents(st: Store, name: string, data: string, writeOk: bool): (r: (Store, Option<nat>))
    ensures r.1.Some? <==> st.dirExists && writeOk
    ensures r.1.Some? ==> r.1.value == |data| && r.0.files == st.files[name := data]
    ensures r.1.None? ==> r.0 == st
    ensures r.0.dirExists == st.dirExists
  {
    if st.dirExists && writeOk then (st.(files := st.files[name := data]), Some(|data|))
    else (st, None)
  }

  /** The PHP truth value of `file_put_contents`'s result: false and 0 are both false. */
  predicate Written(result: Option<nat>): (b: bool)
    ensures !b <==> result == None || result == Some(0)
  {
    result.Some? && result.value != 0
  }

  /** The record that line 29 encodes for a request with data. */
  function RecordOf(req: Request): Payload
    requires req.path.Some? && req.body.Some?
  {
    WithInstance(req.body.value, ExtractInstance(req.path.value))
  }

  /**
   * The whole script as a function of the filesystem, the request and the
   * environment. The response is one of four; a 501 leaves everything as it
   * was; no file other than the request's output file is ever created.
   */
  function Handled(st: Store, req: Request, env: Env): (r: (Store, Response))
    ensures r.1 in {Response(501, ""), Response(501, NoDataMessage),
                    Response(500, WriteFailedMessage), Response(200, "")}
    ensures r.1.status == 501 ==> r.0 == st
    ensures r.0.files.Keys <= st.files.Keys + {OutputFile(if req.path.Some? then ExtractInstance(req.path.value) else None)}
  {
    if req.path.None? then
      (st, Response(501, ""))
    else if !HasData(req.body) then
      (st, Response(501, NoDataMessage))
    else
      var instance := ExtractInstance(req.path.value);
      var output := OutputText(env.encode(WithInstance(req.body.value, instance)));
      var (st', written) := FilePutContents(Mkdir(st, env.mkdirOk), OutputFile(instance), output, env.writeOk);
      if !Written(written) then (st', Response(500, WriteFailedMessage))
      else (st', Response(200, ""))
  }

  /** The filesystem and the script's top-level steps. */
  class Endpoint {
    var files: map<string, string>
    var dirExists: bool

    function State(): Store
      reads this
    {
      Store(files, dirExists)
    }

    constructor (files: map<string, string>, dirExists: bool)
      ensures State() == Store(files, dirExists)
    {
      this.files := files;
      this.dirExists := dirExists;
    }

    /** Lines 39-41. */
    method MakeDir(mkdirOk: bool)
      modifies this
      ensures State() == Mkdir(old(State()), mkdirOk)
    {
      if !dirExists {
        dirExists := mkdirOk;
      }
    }

    /** Line 45: replace the file's contents; nothing else changes. */
    method PutContents(name: string, data: string, writeOk: bool) returns (written: Option<nat>)
      modifies this
      ensures (State(), written) == FilePutContents(old(State()), name, data, writeOk)
      ensures written.Some? ==> files == old(files)[name := data]
      ensures written.None? ==> files == old(files)
      ensures dirExists == old(dirExists)
    {
      if dirExists && writeOk {
        files := files[name := data];
        written := Some(|data|);
      } else {
        written := None;
      }
    }

    /** One request, step by step, with the script's early returns. */
    method Handle(req: Request, env: Env) returns (resp: Response)
      modifies this
      ensures (State(), resp) == Handled(old(State()), req, env)
    {
      if req.path.None? {
        return Response(501, "");
      }
      var path := req.path.value;
      var instance := ExtractInstance(path);
      if !HasData(req.body) {
        return Response(501, NoDataMessage);
      }
      var data := req.body.value;
      data := data[InstanceKey := InstanceValue(instance)];
      var output := OutputText(env.encode(data));
      MakeDir(env.mkdirOk);
      var written := PutContents(OutputFile(instance), output, env.writeOk);
      if !Written(written) {
        return Response(500, WriteFailedMessage);
      }
      return Response(200, "");
    }
  }

  /** Without a `path` parameter: 501, no body, and nothing else happens. */
  lemma MissingPath(st: Store, req: Request, env: Env)
    requires req.path.None?
    ensures Handled(st, req, env) == (st, Response(501, ""))
  {
  }

  /** With a path but no data: 501 with the diagnostic, and no file or directory is touched. */
  lemma NoData(st: Store, req: Request, env: Env)
    requires req.path.Some? && !HasData(req.body)
    ensures Handled(st, req, env) == (st, Response(501, NoDataMessage))
  {
  }

  /** The response table: exactly four outcomes, each with its own body. */
  lemma Outcomes(st: Store, req: Request, env: Env)
    ensures var resp := Handled(st, req, env).1;
      || resp == Response(501, "")
      || resp == Response(501, NoDataMessage)
      || resp == Response(500, WriteFailedMessage)
      || resp == Response(200, "")
    ensures Handled(st, req, env).1.status == 501 <==> req.path.None? || !HasData(req.body)
    ensures Handled(st, req, env).1.status == 200 <==>
      && req.path.Some? && HasData(req.body)
      && (st.dirExists || env.mkdirOk) && env.writeOk
      && OutputText(env.encode(RecordOf(req))) != ""
  {
  }

  /**
   * On success exactly one file changes: `sensors/<instance>.json` now holds
   * the encoded record, replacing whatever it held; the directory exists.
   */
  lemma SuccessWritesRecord(st: Store, req: Request, env: Env)
    requires Handled(st, req, env).1.status == 200
    ensures req.path.Some? && req.body.Some?
    ensures var st' := Handled(st, req, env).0;
      var name := OutputFile(ExtractInstance(req.path.value));
      && env.encode(RecordOf(req)).Some?
      && st'.dirExists
      && st'.files.Keys == st.files.Keys + {name}
      && st'.files[name] == env.encode(RecordOf(req)).value
      && (forall f :: f in st.files && f != name ==> st'.files[f] == st.files[f])
  {
  }

  /**
   * A failed write reports 500. The directory step has already run, so the
   * directory may now exist. The files are unchanged unless the write was
   * accepted with nothing to write, in which case that one file is emptied.
   */
  lemma WriteFailure(st: Store, req: Request, env: Env)
    requires Handled(st, req, env).1.status == 500
    ensures Handled(st, req, env).1.body == WriteFailedMessage
    ensures req.path.Some? && HasData(req.body)
    ensures Handled(st, req, env).0.dirExists == (st.dirExists || env.mkdirOk)
    ensures (st.dirExists || env.mkdirOk) && env.writeOk ==> OutputText(env.encode(RecordOf(req))) == ""
    ensures var name := OutputFile(ExtractInstance(req.path.value));
      Handled(st, req, env).0.files
        == if (st.dirExists || env.mkdirOk) && env.writeOk then st.files[name := ""] else st.files
  {
  }

  /**
   * Two successful requests for the same instance leave only the second
   * record: the first leaves no trace in the files (it may have created the
   * directory, which then exists).
   */
  lemma SecondWriteReplacesFirst(st: Store, first: Request, second: Request, env1: Env, env2: Env)
    requires first.path.Some? && second.path.Some?
    requires ExtractInstance(first.path.value) == ExtractInstance(second.path.value)
    requires Handled(st, first, env1).1.status == 200
    requires Handled(Handled(st, first, env1).0, second, env2).1.status == 200
    ensures var name := OutputFile(ExtractInstance(second.path.value));
      Handled(Handled(st, first, env1).0, second, env2).0.files
        == st.files[name := env2.encode(RecordOf(second)).value]
    ensures Handled(Handled(st, first, env1).0, second, env2).0.dirExists
  {
    SuccessWritesRecord(st, first, env1);
    SuccessWritesRecord(Handled(st, first, env1).0, second, env2);
  }

  /**
   * A request for another instance leaves an earlier instance's file as it
   * was. An unset instance writes the file of the empty instance, so "other"
   * is compared with the instance's text.
   */
  lemma OtherInstanceUntouched(st: Store, req: Request, env: Env, other: string)
    requires req.path.Some? && ExtractInstance(req.path.value).GetOr("") != other
    requires OutputFile(Some(other)) in st.files
    ensures var st' := Handled(st, req, env).0;
      OutputFile(Some(other)) in st'.files
      && st'.files[OutputFile(Some(other))] == st.files[OutputFile(Some(other))]
  {
    var text := ExtractInstance(req.path.value).GetOr("");
    OutputFileInjective(text, other);
    assert OutputFile(ExtractInstance(req.path.value)) == OutputFile(Some(text));
  }

  /**
   * The happy path: `path=sensors/id:unit7` with body
   * `{"pm02":12}` writes `sensors/unit7.json` holding the reading with
   * `"instance":"unit7"` added, and answers 200 with an empty body.
   */
  lemma HappyPathExample(st: Store, path: string, reading: Payload, encode: Payload -> Option<string>, json: string)
    requires path == "sensors/id:unit7" && reading == map["pm02" := Other(12)]
    requires st.dirExists
    requires encode(map["pm02" := Other(12), InstanceKey := Text("unit7")]) == Some(json)
    requires json != ""
    ensures Handled(st, Request(Some(path), Some(reading)), Env(encode, true, true))
      == (st.(files := st.files["sensors/unit7.json" := json]), Response(200, ""))
  {
    var instance := ExtractInstance(path);
    assert instance == Some("unit7") by {
      ExtractExample();
    }
    var record := WithInstance(reading, instance);
    assert record == map["pm02" := Other(12), InstanceKey := Text("unit7")];
    assert OutputFile(instance) == "sensors/unit7.json";
  }

  /**
   * A path outside `sensors/` leaves the instance unset: there is no `abc`
   * fallback, and a successful request writes `sensors/.json` with
   * `"instance": null`.
   */
  lemma NonSensorsPathExample(st: Store, path: string, body: Payload, env: Env)
    requires path == "other/thing" && HasData(Some(body))
    ensures ExtractInstance(path) == None
    ensures var (st', resp) := Handled(st, Request(Some(path), Some(body)), env);
      resp.status == 200 ==>
        st'.files == st.files["sensors/.json" := env.encode(body[InstanceKey := Null]).value]
  {
    ExtractNone(path);
    assert path[..8] != SensorsSegment + "/" by {
      assert path[0] == 'o';
    }
    assert OutputFile(None) == "sensors/.json";
  }
}
