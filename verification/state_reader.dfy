/**
 * `readInstalledTag` (src/server.js): the release tag recorded in the
 * add-on's state file after an update, with a fallback for every way the
 * file can fail to supply one. `JSON.parse` is an oracle that may refuse.
 */
module StateReader {
  import opened Results
  import opened Text
  import opened JsValues
  import opened Normalize
  import opened Paths

  /**
   * The value of `release_tag` in the state file, or `''` when the parsed
   * payload or its `release_tag` is falsy; `None` when the file is missing,
   * unreadable or not JSON.
   */
  function StoredTag(fs: FileSystem, parseJson: string -> Option<Value>, stateFile: Path): Option<Value> {
    if stateFile !in fs.existing || stateFile !in fs.contents then None
    else match parseJson(fs.contents[stateFile])
      case None => None
      case Some(payload) =>
        var field := if Truthy(payload) then Member(payload, "release_tag") else Undefined;
        Some(if Truthy(field) then field else Str(""))
  }

  /**
   * `readInstalledTag(stateFile, fallbackTag)`: never fails; the stored tag
   * when it normalises to something, else the fallback. A stored value whose
   * conversion to text throws is caught like an unreadable file.
   */
  function ReadInstalledTag(fs: FileSystem, conv: Conversions, parseJson: string -> Option<Value>,
                            stateFile: Path, fallbackTag: string): (r: string)
    ensures stateFile !in fs.existing ==> r == fallbackTag
    ensures StoredTag(fs, parseJson, stateFile).None? ==> r == fallbackTag
    ensures StoredTag(fs, parseJson, stateFile).Some? ==>
      var tag := NormalizeReleaseTag(conv, StoredTag(fs, parseJson, stateFile).value);
      r == if tag.Ok? && tag.value != "" then tag.value else fallbackTag
    ensures r == fallbackTag || (r != "" && r[0] == 'v')
  {
    if stateFile !in fs.existing then fallbackTag
    else if stateFile !in fs.contents then fallbackTag
    else match parseJson(fs.contents[stateFile])
      case None => fallbackTag
      case Some(payload) =>
        var tag := NormalizeReleaseTag(conv, if Truthy(payload) && Truthy(Member(payload, "release_tag"))
                                             then Member(payload, "release_tag") else Str(""));
        if tag.Ok? && tag.value != "" then tag.value else fallbackTag
  }

  /** With a normalised fallback (as the handler passes), the reported tag is always normalised. */
  lemma InstalledTagIsNormalised(fs: FileSystem, conv: Conversions, parseJson: string -> Option<Value>,
                                 stateFile: Path, fallbackTag: string)
    requires NormalizeTagText(fallbackTag) == fallbackTag
    ensures var r := ReadInstalledTag(fs, conv, parseJson, stateFile, fallbackTag);
      NormalizeTagText(r) == r
  {
    var stored := StoredTag(fs, parseJson, stateFile);
    var r := ReadInstalledTag(fs, conv, parseJson, stateFile, fallbackTag);
    if stored.Some? {
      var text := TextOrEmpty(conv, stored.value);
      if text.Ok? {
        var tag := NormalizeTagText(text.value);
        assert NormalizeReleaseTag(conv, stored.value) == Ok(tag);
        TagTextIdempotent(text.value);
        assert r == if tag != "" then tag else fallbackTag;
      } else {
        assert NormalizeReleaseTag(conv, stored.value).Err?;
      }
    } else {
      assert r == fallbackTag;
    }
  }
}
