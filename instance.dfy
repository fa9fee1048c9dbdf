/**
 * Deriving the sensor instance from the `path` query parameter
 * (index.php lines 17-23): split the path on '/', and when its first
 * segment is `sensors`, split the second segment on ':' and take the
 * second token.
 */
module Instance {
  import opened Options
  import opened Explode

  const SensorsSegment: string := "sensors"

  /**
   * The instance named by a request path, or None where the script leaves
   * `$instance` unset: the first segment is not `sensors`, there is no second
   * segment, or the second segment has no ':'. A set instance comes from a
   * path that begins with "sensors/" and never contains a ':'.
   */
  function ExtractInstance(path: string): (r: Option<string>)
    ensures r.Some? ==> |path| >= 8 && path[..8] == SensorsSegment + "/"
    ensures r.Some? ==> ':' !in r.value
  {
    SensorSegmentsPrefix(path);
    var segments := Split(path, '/');
    if segments[0] == SensorsSegment && |segments| > 1 then
      var tokens := Split(segments[1], ':');
      if |tokens| > 1 then Some(tokens[1]) else None
    else
      None
  }

  /**
   * A reference reading of the same rule that scans for separators instead of
   * splitting: the path must begin with "sensors/"; its second segment runs up
   * to the next '/'; the instance is what follows the first ':' of that segment,
   * up to the next ':' or the end of the segment.
   */
  ghost function ScanInstance(path: string): Option<string>
  {
    if |path| < 8 || path[..8] != SensorsSegment + "/" then None
    else
      var rest := path[8..];
      TokenAfterColon(rest[..IndexOf(rest, '/')])
  }

  /** What follows the first ':' of a segment up to the next ':', if it has a ':'. */
  ghost function TokenAfterColon(segment: string): Option<string>
  {
    var colon := IndexOf(segment, ':');
    if colon == |segment| then None
    else
      var after := segment[colon + 1..];
      Some(after[..IndexOf(after, ':')])
  }

  /** Splitting and scanning agree on every path. */
  lemma ExtractMatchesScan(path: string)
    ensures ExtractInstance(path) == ScanInstance(path)
  {
    SensorPathSegments(path);
    SensorSegmentsPrefix(path);
    if |path| >= 8 && path[..8] == SensorsSegment + "/" {
      var rest := path[8..];
      SecondToken(rest[..IndexOf(rest, '/')]);
    }
  }

  /** A path beginning with "sensors/" has `sensors` as its first segment and a second one. */
  lemma SensorPathSegments(path: string)
    ensures |path| >= 8 && path[..8] == SensorsSegment + "/" ==>
      var segments := Split(path, '/');
      && segments[0] == SensorsSegment && |segments| > 1
      && segments[1] == path[8..][..IndexOf(path[8..], '/')]
  {
    if |path| >= 8 && path[..8] == SensorsSegment + "/" {
      assert path == SensorsSegment + ['/'] + path[8..];
      SplitConcat(SensorsSegment, path[8..], '/');
      SplitNoSeparator(SensorsSegment, '/');
      SplitAtFirst(path[8..], '/');
      assert path[8..][..|path[8..]|] == path[8..];
    }
  }

  /** Conversely, `sensors` followed by a second segment means the path begins with "sensors/". */
  lemma SensorSegmentsPrefix(path: string)
    ensures var segments := Split(path, '/');
      segments[0] == SensorsSegment && |segments| > 1 ==>
      |path| >= 8 && path[..8] == SensorsSegment + "/"
  {
    var k := IndexOf(path, '/');
    SplitAtFirst(path, '/');
    if k < |path| && path[..k] == SensorsSegment {
      assert path[..8] == path[..k] + [path[k]];
    }
  }

  /** The second ':'-token of a segment is what follows its first ':', up to the next one. */
  lemma SecondToken(segment: string)
    ensures var tokens := Split(segment, ':');
      var colon := IndexOf(segment, ':');
      && (|tokens| > 1 <==> colon < |segment|)
      && (colon < |segment| ==>
            var after := segment[colon + 1..];
            tokens[1] == after[..IndexOf(after, ':')])
  {
    SplitAtFirst(segment, ':');
    var colon := IndexOf(segment, ':');
    if colon < |segment| {
      var after := segment[colon + 1..];
      SplitAtFirst(after, ':');
      assert after[..|after|] == after;
    }
  }

  /** The instance contains neither separator, so it never names a sub-directory. */
  lemma ExtractedHasNoSeparators(path: string)
    requires ExtractInstance(path).Some?
    ensures '/' !in ExtractInstance(path).value
    ensures ':' !in ExtractInstance(path).value
  {
    ExtractMatchesScan(path);
    var rest := path[8..];
    var segment := rest[..IndexOf(rest, '/')];
    var colon := IndexOf(segment, ':');
    var after := segment[colon + 1..];
    var inst := after[..IndexOf(after, ':')];
    forall i | 0 <= i < |inst| ensures inst[i] != '/' && inst[i] != ':' {
      assert inst[i] == rest[colon + 1 + i];
    }
  }

  /** The three ways the instance stays unset, and no others. */
  lemma ExtractNone(path: string)
    ensures ExtractInstance(path).None? <==>
      (|path| < 8 || path[..8] != SensorsSegment + "/" ||
       ':' !in path[8..][..IndexOf(path[8..], '/')])
  {
    ExtractMatchesScan(path);
    if |path| >= 8 && path[..8] == SensorsSegment + "/" {
      var rest := path[8..];
      var segment := rest[..IndexOf(rest, '/')];
      var colon := IndexOf(segment, ':');
      if ':' in segment {
        var j :| 0 <= j < |segment| && segment[j] == ':';
        assert colon <= j;
      }
    }
  }

  /**
   * A well-formed sensor path `sensors/<id>:<instance><more><rest>` names
   * `<instance>`: further ':' tokens of the second segment (`more`) and
   * further '/' segments (`rest`) are ignored.
   */
  lemma ExtractWellFormed(id: string, inst: string, more: string, rest: string)
    requires '/' !in id && ':' !in id
    requires '/' !in inst && ':' !in inst
    requires '/' !in more && (more == [] || more[0] == ':')
    requires rest == [] || rest[0] == '/'
    ensures ExtractInstance(SensorsSegment + "/" + id + ":" + inst + more + rest) == Some(inst)
  {
    var segment := id + ":" + inst + more;
    var path := SensorsSegment + "/" + id + ":" + inst + more + rest;
    assert path[..8] == SensorsSegment + "/" && path[8..] == segment + rest;
    SecondSegmentOf(id, inst, more, rest);
    TokenOf(id, inst, more);
    ExtractMatchesScan(path);
  }

  lemma SecondSegmentOf(id: string, inst: string, more: string, rest: string)
    requires '/' !in id && '/' !in inst && '/' !in more
    requires rest == [] || rest[0] == '/'
    ensures var segment := id + ":" + inst + more;
      (segment + rest)[..IndexOf(segment + rest, '/')] == segment
  {
    var segment := id + ":" + inst + more;
    NoSlashInSegment(id, inst, more);
    IndexOfConcat(segment, rest, '/');
    assert (segment + rest)[..|segment|] == segment;
  }

  lemma TokenOf(id: string, inst: string, more: string)
    requires ':' !in id && ':' !in inst
    requires more == [] || more[0] == ':'
    ensures TokenAfterColon(id + ":" + inst + more) == Some(inst)
  {
    var segment := id + ":" + inst + more;
    assert segment == id + (":" + inst + more);
    IndexOfConcat(id, ":" + inst + more, ':');
    assert segment[|id| + 1..] == inst + more;
    IndexOfConcat(inst, more, ':');
    assert (inst + more)[..|inst|] == inst;
  }

  lemma NoSlashInSegment(id: string, inst: string, more: string)
    requires '/' !in id && '/' !in inst && '/' !in more
    ensures '/' !in id + ":" + inst + more
  {
    var segment := id + ":" + inst + more;
    forall i | 0 <= i < |segment| ensures segment[i] != '/' {
      if i < |id| { assert segment[i] == id[i]; }
      else if i == |id| { }
      else if i < |id| + 1 + |inst| { assert segment[i] == inst[i - |id| - 1]; }
      else { assert segment[i] == more[i - |id| - 1 - |inst|]; }
    }
  }

  /** `sensors/id:a:b/x` names `a`: further `:` tokens and `/` segments are ignored. */
  lemma ExtractExample()
    ensures ExtractInstance("sensors/id:a:b/x") == Some("a")
    ensures ExtractInstance("sensors/id:unit7") == Some("unit7")
  {
    ExtractWellFormed("id", "a", ":b", "/x");
    assert SensorsSegment + "/" + "id" + ":" + "a" + ":b" + "/x" == "sensors/id:a:b/x";
    ExtractWellFormed("id", "unit7", "", "");
    assert SensorsSegment + "/" + "id" + ":" + "unit7" + "" + "" == "sensors/id:unit7";
  }
}
