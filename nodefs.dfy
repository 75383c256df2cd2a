/** The one piece of logic in the Node file-system adapter: where the file of
    a resource id lives under a config-set root. */
module NodeFs {
  import opened Wrappers
  import opened Strings
  import ConfigSets

  /** `buildAbsPathForId`: `<root>/<cat>/<name>.json` for a three-segment id,
      `<root>/<cat>/<name>/<name>_<v>.json` for a four-segment one, and an
      exception for any other. */
  function BuildAbsPathForId(root: string, id: string): Result<string, string>
  {
    var parts := Split(id, '.');
    if |parts| < 3 then Failure("Invalid ID format: " + id + ". Expected format 'configset.type.name'")
    else if |parts| == 4 then Success(root + "/" + parts[1] + "/" + parts[2] + "/" + parts[2] + "_" + parts[3] + ".json")
    else if |parts| == 3 then Success(root + "/" + parts[1] + "/" + parts[2] + ".json")
    else Failure("Invalid ID format: " + id + ". Expected format 'configset.type.name' or 'configset.type.name.version'")
  }

  /** The adapter and the config set agree on every id either accepts: the
      adapter throws exactly where the config set answers `""`. */
  lemma AgreesWithConfigSet(root: string, id: string)
    ensures BuildAbsPathForId(root, id).Success? <==> ConfigSets.BuildPath(root, id) != ""
    ensures BuildAbsPathForId(root, id).Success? ==> BuildAbsPathForId(root, id).value == ConfigSets.BuildPath(root, id)
  {
    ConfigSets.BuildPathEmpty(root, id);
  }

  /** Too few segments and too many are told apart by the message. */
  lemma RejectsBadIds(root: string, id: string)
    ensures SegmentCount(id, '.') < 3 ==>
      BuildAbsPathForId(root, id) == Failure("Invalid ID format: " + id + ". Expected format 'configset.type.name'")
    ensures SegmentCount(id, '.') > 4 ==>
      BuildAbsPathForId(root, id)
        == Failure("Invalid ID format: " + id + ". Expected format 'configset.type.name' or 'configset.type.name.version'")
  {
  }
}
