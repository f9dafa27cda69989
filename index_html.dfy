/** The page the bundler starts from: the HTML template with its bridge marker
    replaced by the script tag that loads the WebUI bridge. */
module IndexHtml {
  import opened Wrappers
  import opened Text

  /** The constant parts of the script tag around its `src` attribute. */
  const TagOpen := "<script src=\""
  const TagClose := "\"></script>"
  const DevHost := "http://localhost:"
  const BridgeFile := "webui.js"

  /** In development the bridge is fetched from the WebUI server on
      `webuiServer`; otherwise it is the file beside the page. */
  function ScriptTag(buildOption: string, webuiServer: nat): string {
    if buildOption == "dev" then TagOpen + DevHost + NatToString(webuiServer) + "/" + BridgeFile + TagClose
    else TagOpen + BridgeFile + TagClose
  }

  /** The `src` attribute of a tag shaped `<script src="..."></script>`. */
  function SourceOf(tag: string): Option<string> {
    if |tag| >= |TagOpen| + |TagClose| && tag[..|TagOpen|] == TagOpen && tag[|tag| - |TagClose|..] == TagClose
    then Some(tag[|TagOpen|..|tag| - |TagClose|])
    else None
  }

  /** The tag loads `webui.js` from `localhost:<webuiServer>` in development and
      the local `webui.js` otherwise. */
  lemma ScriptSource(buildOption: string, webuiServer: nat)
    ensures SourceOf(ScriptTag(buildOption, webuiServer))
         == Some(if buildOption == "dev" then DevHost + NatToString(webuiServer) + "/" + BridgeFile else BridgeFile)
  {
    var src := if buildOption == "dev" then DevHost + NatToString(webuiServer) + "/" + BridgeFile else BridgeFile;
    var tag := ScriptTag(buildOption, webuiServer);
    assert tag == TagOpen + src + TagClose;
    assert tag[..|TagOpen|] == TagOpen;
    assert tag[|tag| - |TagClose|..] == TagClose;
    assert tag[|TagOpen|..|tag| - |TagClose|] == src;
  }

  /** The port in the development tag reads back as the configured WebUI port. */
  lemma DevTagPort(webuiServer: nat)
    ensures var tag := ScriptTag("dev", webuiServer);
      var start := |TagOpen| + |DevHost|;
      var digits := NatToString(webuiServer);
      start + |digits| < |tag| && tag[start + |digits|] == '/' &&
      AllDigits(tag[start..start + |digits|]) && DigitsValue(tag[start..start + |digits|]) == webuiServer
  {
    var digits := NatToString(webuiServer);
    var tag := ScriptTag("dev", webuiServer);
    var start := |TagOpen| + |DevHost|;
    assert tag == (TagOpen + DevHost) + digits + ("/" + BridgeFile + TagClose);
    assert tag[start..start + |digits|] == digits;
    DigitsValueOfNatToString(webuiServer);
  }

  /** Neither tag holds a `$`, so `String.prototype.replace` inserts it literally. */
  lemma ScriptTagIsLiteral(buildOption: string, webuiServer: nat)
    ensures '$' !in ScriptTag(buildOption, webuiServer)
  {
    var digits := NatToString(webuiServer);
    assert '$' !in digits by {
      assert forall i :: 0 <= i < |digits| ==> digits[i] != '$';
    }
    assert '$' !in TagOpen && '$' !in TagClose && '$' !in BridgeFile;
    assert '$' !in DevHost && '$' !in "/";
  }

  /** The text written to index.html for a template. */
  function Generate(template: string, marker: string, buildOption: string, webuiServer: nat): string {
    ReplaceFirst(template, marker, ScriptTag(buildOption, webuiServer))
  }

  /** The first occurrence of the marker becomes the tag; the text before it
      and everything after it, later occurrences included, are kept. */
  lemma GenerateReplacesFirst(template: string, marker: string, buildOption: string, webuiServer: nat, i: nat)
    requires FindFirst(template, marker) == Some(i)
    ensures var out := Generate(template, marker, buildOption, webuiServer);
      var tag := ScriptTag(buildOption, webuiServer);
      && |out| == |template| - |marker| + |tag|
      && out[..i] == template[..i]
      && out[i..i + |tag|] == tag
      && out[i + |tag|..] == template[i + |marker|..]
  {
    var tag := ScriptTag(buildOption, webuiServer);
    var out := Generate(template, marker, buildOption, webuiServer);
    assert OccursAt(template, marker, i);
    assert out == template[..i] + tag + template[i + |marker|..];
  }

  /** Only the first occurrence is replaced: a later occurrence that starts at
      or after the end of the first one is kept, shifted by the difference in
      length. One that overlaps the first is not kept. */
  lemma GenerateKeepsLaterMarkers(template: string, marker: string, buildOption: string, webuiServer: nat, i: nat, j: nat)
    requires FindFirst(template, marker) == Some(i)
    requires i + |marker| <= j && OccursAt(template, marker, j)
    ensures OccursAt(Generate(template, marker, buildOption, webuiServer), marker, j - |marker| + |ScriptTag(buildOption, webuiServer)|)
  {
    var tag := ScriptTag(buildOption, webuiServer);
    var out := Generate(template, marker, buildOption, webuiServer);
    GenerateReplacesFirst(template, marker, buildOption, webuiServer, i);
    ShiftedOccurrence(template, out, marker, i + |marker|, i + |tag|, j);
  }

  /** An occurrence in a suffix that `out` shares with `template` shifts with it. */
  lemma ShiftedOccurrence(template: string, out: string, marker: string, from: nat, to: nat, j: nat)
    requires from <= j && from <= |template| && to <= |out|
    requires out[to..] == template[from..]
    requires OccursAt(template, marker, j)
    ensures OccursAt(out, marker, j - from + to)
  {
    var d := j - from;
    SliceOfSuffix(out, to, d, |marker|);
    SliceOfSuffix(template, from, d, |marker|);
  }

  lemma SliceOfSuffix(s: string, off: nat, x: nat, n: nat)
    requires off + x + n <= |s|
    ensures s[off..][x..x + n] == s[off + x..off + x + n]
  {
  }

  /** A template without the marker is written out unchanged. */
  lemma GenerateWithoutMarker(template: string, marker: string, buildOption: string, webuiServer: nat)
    requires forall j: nat :: !OccursAt(template, marker, j)
    ensures Generate(template, marker, buildOption, webuiServer) == template
  {
    ReplaceFirstAbsent(template, marker, ScriptTag(buildOption, webuiServer));
  }
}
