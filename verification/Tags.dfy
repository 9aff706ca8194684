/**
 Tags and the directives that shorten them.  The emitter writes a tag as a handle and a suffix, and the parser
 puts the tag together again, both under the directives in force in the document.
 */
module Tags {
  import opened Wrappers
  import opened YamlEvents

  predicate HasHandle(tags: seq<TagDirective>, handle: string) {
    exists k :: 0 <= k < |tags| && tags[k].handle == handle
  }

  function WithDefault(tags: seq<TagDirective>, d: TagDirective): seq<TagDirective> {
    if HasHandle(tags, d.handle) then tags else tags + [d]
  }

  const PRIMARY := TagDirective("!", "!")
  const SECONDARY := TagDirective("!!", "tag:yaml.org,2002:")

  /** The directives in force: those of the document, and the two that every document has unless it has its own. */
  function WithDefaults(tags: seq<TagDirective>): seq<TagDirective> {
    WithDefault(WithDefault(tags, PRIMARY), SECONDARY)
  }

  /** The tag that a handle and a suffix stand for. */
  function Resolve(tags: seq<TagDirective>, handle: string, suffix: string): Option<string> {
    if handle == "" then Some(suffix) else Expanded(tags, handle, suffix)
  }

  function Expanded(tags: seq<TagDirective>, handle: string, suffix: string): Option<string> {
    if tags == [] then None
    else if tags[0].handle == handle then Some(tags[0].prefix + suffix)
    else Expanded(tags[1..], handle, suffix)
  }

  predicate IsAlpha(c: char) {
    '0' <= c <= '9' || 'A' <= c <= 'Z' || 'a' <= c <= 'z' || c == '_' || c == '-'
  }

  predicate AllAlpha(s: string) {
    forall i :: 0 <= i < |s| ==> IsAlpha(s[i])
  }

  /** What an anchor or an alias may be called. */
  predicate NameOk(s: string) {
    s != "" && AllAlpha(s)
  }

  predicate DirectiveOk(d: TagDirective) {
    var n := |d.handle|;
    && n > 0 && d.handle[0] == '!' && d.handle[n - 1] == '!' && d.prefix != ""
    && forall i :: 1 <= i < n - 1 ==> IsAlpha(d.handle[i])
  }

  predicate VersionOk(version: Option<Version>) {
    version.Some? ==> version.value.major == 1 && (version.value.minor == 1 || version.value.minor == 2)
  }

  predicate DistinctHandles(tags: seq<TagDirective>) {
    forall i, j :: 0 <= i < j < |tags| ==> tags[i].handle != tags[j].handle
  }

  predicate DirectivesOk(version: Option<Version>, tags: seq<TagDirective>) {
    VersionOk(version) && (forall k :: 0 <= k < |tags| ==> DirectiveOk(tags[k])) && DistinctHandles(tags)
  }

  /** Directives that the emitter can have in force. */
  predicate Sound(tags: seq<TagDirective>) {
    DistinctHandles(tags) && forall k :: 0 <= k < |tags| ==> tags[k].handle != ""
  }

  lemma {:induction false} DefaultsSound(tags: seq<TagDirective>)
    requires Sound(tags)
    ensures Sound(WithDefaults(tags))
  {
    OneMoreSound(tags, PRIMARY);
    OneMoreSound(WithDefault(tags, PRIMARY), SECONDARY);
  }

  lemma {:induction false} OneMoreSound(tags: seq<TagDirective>, d: TagDirective)
    requires Sound(tags) && d.handle != ""
    ensures Sound(WithDefault(tags, d))
  {
  }

  /** How a tag is written: without a handle its suffix is the whole tag, in angle brackets. */
  datatype Short = Short(handle: Option<string>, suffix: string)

  predicate Shortens(d: TagDirective, tag: string) {
    |d.prefix| < |tag| && d.prefix <= tag
  }

  /** The first directive that shortens the tag gives its handle. */
  function Shortened(tags: seq<TagDirective>, tag: string): Short {
    if tags == [] then Short(None, tag)
    else if Shortens(tags[0], tag) then Short(Some(tags[0].handle), tag[|tags[0].prefix|..])
    else Shortened(tags[1..], tag)
  }

  /** What the parser makes of a tag as it is written. */
  function Read(tags: seq<TagDirective>, short: Short): Option<string> {
    Resolve(tags, if short.handle.Some? then short.handle.value else "", short.suffix)
  }

  /** A tag that is written under some directives is read under them as the same tag. */
  lemma {:induction false} ReadAfterShortened(tags: seq<TagDirective>, tag: string)
    requires Sound(tags)
    ensures Read(tags, Shortened(tags, tag)) == Some(tag)
    ensures Shortened(tags, tag).handle.Some? ==> HasHandle(tags, Shortened(tags, tag).handle.value)
  {
    var short := Shortened(tags, tag);
    ShortenedExpands(tags, tag);
    if short.handle.Some? {
      assert short.handle.value != "";
    }
  }

  lemma {:induction false} ShortenedExpands(tags: seq<TagDirective>, tag: string)
    requires DistinctHandles(tags)
    ensures var short := Shortened(tags, tag);
            if short.handle.Some? then
              HasHandle(tags, short.handle.value) && Expanded(tags, short.handle.value, short.suffix) == Some(tag)
            else short.suffix == tag
    decreases |tags|
  {
    if tags != [] {
      var rest := tags[1..];
      if Shortens(tags[0], tag) {
        assert tag == tags[0].prefix + tag[|tags[0].prefix|..];
      } else {
        assert forall i :: 0 <= i < |rest| ==> rest[i] == tags[i + 1];
        ShortenedExpands(rest, tag);
      }
    }
  }
}
