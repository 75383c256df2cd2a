/** The legacy instance builder (`builders/instanceBuilder.ts`): the path of
    a model is rewritten to the matching instance path by replacing its last
    `models` directory segment with `instances`; the object itself is
    returned as it came. Node's POSIX `path.parse` and `path.join` are
    modelled for `/`-separated paths. */
module LegacyInstanceBuilder {
  import opened Wrappers
  import opened Strings
  import opened JsonValues
  import opened Host

  // ---------------------------------------------------------------------------
  // path.parse, path.normalize, path.join
  // ---------------------------------------------------------------------------

  datatype ParsedPath = ParsedPath(dir: string, base: string)

  /** `path.parse(p)`: `base` is the last `/`-part, `dir` everything before
      its separator (`/` itself for a file at the root, empty without a
      separator). */
  function ParsePath(p: string): (r: ParsedPath)
    ensures '/' !in r.base
  {
    var parts := Split(p, '/');
    var base := parts[|parts| - 1];
    if |parts| == 1 then ParsedPath("", base)
    else
      var dir := Join(parts[..|parts| - 1], '/');
      ParsedPath(if dir == "" then "/" else dir, base)
  }

  /** The segment loop of `normalizeString`: empty and `.` segments vanish, and
      `..` removes the segment before it, or is kept at the front of a
      relative path. */
  function ResolveDots(parts: seq<string>, isAbsolute: bool, stack: seq<string>): seq<string>
    decreases |parts|
  {
    if |parts| == 0 then stack
    else
      var part := parts[0];
      var stack' :=
        if part == "" || part == "." then stack
        else if part == ".." then
          if |stack| > 0 && stack[|stack| - 1] != ".." then stack[..|stack| - 1]
          else if isAbsolute then stack
          else stack + [".."]
        else stack + [part];
      ResolveDots(parts[1..], isAbsolute, stack')
  }

  /** `path.normalize(p)`. */
  function Normalize(p: string): string
  {
    if p == "" then "."
    else
      var isAbsolute := p[0] == '/';
      var trailingSeparator := p[|p| - 1] == '/';
      var body := Join(ResolveDots(Split(p, '/'), isAbsolute, []), '/');
      if body == "" then
        if isAbsolute then "/" else if trailingSeparator then "./" else "."
      else
        var body' := if trailingSeparator then body + "/" else body;
        if isAbsolute then "/" + body' else body'
  }

  function NonEmpty(args: seq<string>): seq<string>
  {
    if |args| == 0 then [] else (if args[0] == "" then [] else [args[0]]) + NonEmpty(args[1..])
  }

  /** `path.join(...args)`: the non-empty arguments joined by `/`, then
      normalised; `.` when every argument is empty. */
  function PathJoin(args: seq<string>): string
  {
    var parts := NonEmpty(args);
    if |parts| == 0 then "." else Normalize(Join(parts, '/'))
  }

  // ---------------------------------------------------------------------------
  // build
  // ---------------------------------------------------------------------------

  /** `pathSegments.lastIndexOf(x)`. */
  function LastIndexOf(xs: seq<string>, x: string): (i: int)
    ensures -1 <= i < |xs|
    ensures i >= 0 ==> xs[i] == x
    ensures forall k :: i < k < |xs| ==> xs[k] != x
  {
    if |xs| == 0 then -1
    else if xs[|xs| - 1] == x then |xs| - 1
    else LastIndexOf(xs[..|xs| - 1], x)
  }

  /** The path `build` returns. */
  function InstancePath(fullFilePath: string): string
  {
    var parsed := ParsePath(fullFilePath);
    var segments := Split(parsed.dir, '/');
    var modelsIndex := LastIndexOf(segments, "models");
    if modelsIndex == -1 then fullFilePath
    else
      var newDir := PathJoin(segments[modelsIndex := "instances"]);
      PathJoin([newDir, parsed.base])
  }

  /** What `build(jsonObject, fullFilePath)` resolves to: without a `models`
      directory the path and object come back as they are; otherwise the
      object is compiled as a schema and checked against itself (the result
      is only logged, but an exception of `compile` rejects the build) and
      comes back, the same object, with the rewritten path. */
  function InstanceBuilt(o: Oracles, jsonObject: Json, fullFilePath: string): (r: Result<(string, Json), string>)
    ensures r.Success? ==> r.value.1 == jsonObject && r.value.0 == InstancePath(fullFilePath)
    ensures r.Failure? <==> "models" in Split(ParsePath(fullFilePath).dir, '/') && o.ajv(jsonObject, jsonObject).Failure?
    ensures r.Failure? ==> r.error == o.ajv(jsonObject, jsonObject).error
  {
    var parsed := ParsePath(fullFilePath);
    if LastIndexOf(Split(parsed.dir, '/'), "models") == -1 then Success((fullFilePath, jsonObject))
    else
      match o.ajv(jsonObject, jsonObject)
      case Failure(e) => Failure(e)
      case Success(_) => Success((InstancePath(fullFilePath), jsonObject))
  }

  /** `build(jsonObject, fullFilePath)`: the directory segments are held in
      an array, and the last `models` among them is overwritten in place. */
  method Build(o: Oracles, jsonObject: Json, fullFilePath: string) returns (r: Result<(string, Json), string>)
    ensures r == InstanceBuilt(o, jsonObject, fullFilePath)
  {
    var parsedPath := ParsePath(fullFilePath);
    var segments := Split(parsedPath.dir, '/');
    var pathSegments := new string[|segments|](i requires 0 <= i < |segments| => segments[i]);
    assert pathSegments[..] == segments;
    var modelsIndex := LastIndexOf(pathSegments[..], "models");
    if modelsIndex == -1 {
      return Success((fullFilePath, jsonObject));
    }
    pathSegments[modelsIndex] := "instances";
    assert pathSegments[..] == segments[modelsIndex := "instances"];
    var newDir := PathJoin(pathSegments[..]);
    var newFilePath := PathJoin([newDir, parsedPath.base]);
    var compiled := o.ajv(jsonObject, jsonObject);
    if compiled.Failure? {
      return Failure(compiled.error);
    }
    return Success((newFilePath, jsonObject));
  }

  /** A path whose directory has no `models` segment is kept; only the
      directory is examined, so a file named `models` does not count. */
  lemma NoModelsKeepsPath(o: Oracles, jsonObject: Json, fullFilePath: string)
    requires "models" !in Split(ParsePath(fullFilePath).dir, '/')
    ensures InstanceBuilt(o, jsonObject, fullFilePath) == Success((fullFilePath, jsonObject))
  {
  }

  /** Parsing a path of separator-free segments. */
  lemma ParseJoined(parts: seq<string>)
    requires |parts| >= 2
    requires forall i :: 0 <= i < |parts| ==> '/' !in parts[i]
    ensures var dir := Join(parts[..|parts| - 1], '/');
      ParsePath(Join(parts, '/')) == ParsedPath(if dir == "" then "/" else dir, parts[|parts| - 1])
  {
    SplitOfJoin(parts, '/');
  }

  lemma TwoSegments(a: string, b: string)
    requires '/' !in a && '/' !in b
    ensures Join([a, b], '/') == a + "/" + b
    ensures Split(a + "/" + b, '/') == [a, b]
  {
    assert Join([a, b], '/') == a + ['/'] + b;
    SplitOfJoin([a, b], '/');
  }

  lemma OneSegment(a: string)
    requires '/' !in a
    ensures Split(a, '/') == [a]
  {
    SplitOfJoin([a], '/');
  }

  /** Only the directory is examined: a file named `models` in any
      one-segment directory other than `models` keeps its path. */
  lemma FileNamedModelsKept(dir: string)
    requires dir != "" && '/' !in dir && dir != "models"
    ensures InstancePath(dir + "/models") == dir + "/models"
  {
    var p := dir + "/" + "models";
    assert p == dir + "/models";
    ParseTwo(dir, "models");
    OneSegment(dir);
    assert LastIndexOf(Split(ParsePath(p).dir, '/'), "models") == -1 by {
      assert Split(ParsePath(p).dir, '/') == [dir];
    }
  }

  /** `dir/name` with a non-empty one-segment `dir`. */
  lemma ParseTwo(a: string, b: string)
    requires a != "" && '/' !in a && '/' !in b
    ensures ParsePath(a + "/" + b) == ParsedPath(a, b)
  {
    TwoSegments(a, b);
    var parts := Split(a + "/" + b, '/');
    assert parts[..|parts| - 1] == [a];
  }

  predicate PlainName(name: string)
  {
    name != "" && name != "." && name != ".." && '/' !in name
  }

  /** The segments of a relative path after a leading `..` resolve to
      themselves when they are plain. */
  lemma ResolveRelative(parts: seq<string>)
    requires |parts| >= 1 && parts[0] == ".."
    requires forall i :: 1 <= i < |parts| ==> PlainName(parts[i])
    ensures ResolveDots(parts, false, []) == parts
  {
    var none: seq<string> := [];
    assert parts[0] != "" && parts[0] != "." && parts[0] == "..";
    assert none + [".."] == [".."];
    assert ResolveDots(parts, false, none) == ResolveDots(parts[1..], false, [".."]);
    ResolveDotsPlain(parts[1..], false, [".."]);
    assert [".."] + parts[1..] == parts;
  }

  /** A relative path of plain segments after a `..` normalises to itself. */
  lemma NormalizeRelative(parts: seq<string>)
    requires |parts| >= 2 && parts[0] == ".."
    requires forall i :: 1 <= i < |parts| ==> PlainName(parts[i])
    ensures Normalize(Join(parts, '/')) == Join(parts, '/')
  {
    RelativeSegments(parts);
    RelativeEnds(parts);
    NormalizeKeeps(Join(parts, '/'), parts);
  }

  /** Such a path splits back into its segments, which resolve to themselves. */
  lemma RelativeSegments(parts: seq<string>)
    requires |parts| >= 2 && parts[0] == ".."
    requires forall i :: 1 <= i < |parts| ==> PlainName(parts[i])
    ensures Split(Join(parts, '/'), '/') == parts && ResolveDots(parts, false, []) == parts
  {
    assert '/' !in parts[0];
    assert forall i | 0 <= i < |parts| :: '/' !in parts[i];
    SplitOfJoin(parts, '/');
    ResolveRelative(parts);
  }

  /** Such a path neither starts nor ends with a separator. */
  lemma RelativeEnds(parts: seq<string>)
    requires |parts| >= 2 && parts[0] == ".."
    requires forall i :: 1 <= i < |parts| ==> PlainName(parts[i])
    ensures var p := Join(parts, '/'); p != "" && p[0] != '/' && p[|p| - 1] != '/'
  {
    JoinStartsWith(parts);
    JoinEndsWith(parts);
    assert PlainName(parts[|parts| - 1]);
  }

  /** A non-empty relative path without a trailing separator whose segments
      resolve to themselves is already normal. */
  lemma NormalizeKeeps(p: string, parts: seq<string>)
    requires p != "" && p[0] != '/' && p[|p| - 1] != '/'
    requires Split(p, '/') == parts && ResolveDots(parts, false, []) == parts
    ensures Normalize(p) == p
  {
  }

  lemma {:induction false} JoinStartsWith(parts: seq<string>)
    requires |parts| >= 1 && parts[0] != ""
    ensures |Join(parts, '/')| > 0 && Join(parts, '/')[0] == parts[0][0]
    decreases |parts|
  {
  }

  lemma {:induction false} JoinEndsWith(parts: seq<string>)
    requires |parts| >= 1 && parts[|parts| - 1] != ""
    ensures |Join(parts, '/')| > 0 && Join(parts, '/')[|Join(parts, '/')| - 1] == parts[|parts| - 1][|parts[|parts| - 1]| - 1]
    decreases |parts|
  {
    if |parts| > 1 {
      JoinEndsWith(parts[1..]);
    }
  }

  lemma ParseModelRef(name: string)
    requires PlainName(name)
    ensures ParsePath("../models/" + name) == ParsedPath("../models", name)
  {
    var parts := ["..", "models", name];
    assert Join(parts[1..], '/') == "models/" + name;
    assert Join(parts, '/') == "../models/" + name;
    ParseJoined(parts);
    assert parts[..2] == ["..", "models"];
    TwoSegments("..", "models");
  }

  lemma JoinInstancesDir()
    ensures PathJoin(["..", "instances"]) == "../instances"
  {
    JoinParent("instances");
    assert "../" + "instances" == "../instances";
  }

  /** Joining `..` and a plain name puts one `/` between them. */
  lemma JoinParent(name: string)
    requires PlainName(name)
    ensures PathJoin(["..", name]) == "../" + name
  {
    var segments := ["..", name];
    assert segments[1..][1..] == [];
    assert NonEmpty(segments[1..]) == [name];
    assert NonEmpty(segments) == segments;
    TwoSegments("..", name);
    NormalizeRelative(segments);
  }

  lemma JoinInstanceFile(name: string)
    requires PlainName(name)
    ensures PathJoin(["../instances", name]) == "../instances/" + name
  {
    var args := ["../instances", name];
    assert args[1..][1..] == [];
    assert NonEmpty(args[1..]) == [name];
    assert NonEmpty(args) == args;
    var full := ["..", "instances", name];
    assert Join(full[1..], '/') == "instances/" + name;
    assert Join(full, '/') == "../instances/" + name;
    assert Join(args, '/') == "../instances/" + name;
    NormalizeRelative(full);
  }

  /** The references the registry gives models, `../models/<file>`, become
      `../instances/<file>`. */
  lemma ModelRefBecomesInstanceRef(name: string)
    requires PlainName(name)
    ensures InstancePath("../models/" + name) == "../instances/" + name
  {
    ParseModelRef(name);
    ModelsDirSegments();
    JoinInstancesDir();
    JoinInstanceFile(name);
  }

  /** `../models` is the `models` directory one level up. */
  lemma ModelsDirSegments()
    ensures var segments := Split("../models", '/');
      segments == ["..", "models"] && LastIndexOf(segments, "models") == 1
      && segments[1 := "instances"] == ["..", "instances"]
  {
    TwoSegments("..", "models");
    assert ".." + "/" + "models" == "../models";
  }

  /** Normalising is the join of the resolved segments, so a path's
      segments survive unless they are empty, `.` or `..`. */
  lemma {:induction false} ResolveDotsPlain(parts: seq<string>, isAbsolute: bool, stack: seq<string>)
    requires forall i :: 0 <= i < |parts| ==> PlainName(parts[i])
    ensures ResolveDots(parts, isAbsolute, stack) == stack + parts
    decreases |parts|
  {
    if |parts| > 0 {
      var rest := parts[1..];
      assert forall i :: 0 <= i < |rest| ==> rest[i] == parts[i + 1];
      ResolveDotsPlain(rest, isAbsolute, stack + [parts[0]]);
      assert stack + [parts[0]] + rest == stack + parts;
    }
  }
}
