/**
 * The Expo config plugin: Info.plist usage strings and app group defaults,
 * and an idempotent "append a tagged generated block" edit of the Android
 * project build.gradle. JavaScript's `||` and `??` are written out over
 * optional strings: `||` skips both missing and empty strings, `??` skips
 * only missing ones.
 */
module ConfigPlugin {
  import opened Wrappers

  const CameraUsage := "Allow $(PRODUCT_NAME) to access your camera"
  const MicrophoneUsage := "Allow $(PRODUCT_NAME) to access your microphone"

  /** The two lines appended to the project build.gradle. */
  const GradleMaven :=
    "def expoCameraMavenPath = new File([\"node\", \"--print\", \"require.resolve('expo-camera/package.json')\"].execute(null, rootDir).text.trim(), \"../android/maven\")"
    + "\n" + "allprojects { repositories { maven { url(expoCameraMavenPath) } } }"

  const ImportTag := "expo-webex-calling-import"
  const GradleComment := "//"
  const NotGroovyMessage := "Cannot add camera maven gradle because the build.gradle is not groovy"

  const CameraKey := "NSCameraUsageDescription"
  const MicrophoneKey := "NSMicrophoneUsageDescription"
  const GroupKey := "GroupIdentifier"

  // ---------------------------------------------------------------------
  // Strings

  predicate OccursAt(s: string, sub: string, i: nat) {
    i + |sub| <= |s| && s[i..i + |sub|] == sub
  }

  /** JavaScript's `s.includes(sub)`. */
  predicate Includes(s: string, sub: string) {
    exists i: nat :: i <= |s| && OccursAt(s, sub, i)
  }

  lemma IncludesMiddle(a: string, b: string, c: string)
    ensures Includes(a + b + c, b)
  {
    assert (a + b + c)[|a|..|a| + |b|] == b;
    assert OccursAt(a + b + c, b, |a|);
  }

  /** JavaScript truthiness of a possibly missing string. */
  predicate Truthy(v: Option<string>) {
    v.Some? && v.value != ""
  }

  /** JavaScript's `a || b` on possibly missing strings. */
  function JsOr(a: Option<string>, b: Option<string>): Option<string> {
    if Truthy(a) then a else b
  }

  // ---------------------------------------------------------------------
  // Generated blocks

  datatype MergeResults = MergeResults(contents: string, didMerge: bool, didClear: bool)

  /** The config-plugins code generation helpers, uninterpreted:
      `headerComment(newSrc, tag, comment)` is the hashed begin marker and
      `removeGenerated(src, tag)` is `src` with an earlier block of that tag
      cut out, or nothing when there is none. */
  datatype Codegen = Codegen(
    headerComment: (string, string, string) -> string,
    removeGenerated: (string, string) -> Option<string>)

  /** The block that gets appended: marker, contents, end marker. */
  function GeneratedBlock(header: string, newSrc: string, tag: string, comment: string): string {
    header + "\n" + newSrc + "\n" + comment + " @generated end " + tag
  }

  /** Appends a tagged generated block unless its exact header is already in
      `src`. As written, an earlier block of the same tag that is cleared out
      takes the place of the whole result: `??` binds looser than `+`, so
      the new block is then not appended. */
  function AppendContents(src: string, newSrc: string, tag: string, comment: string, gen: Codegen): (r: MergeResults)
    ensures r.didMerge <==> !Includes(src, gen.headerComment(newSrc, tag, comment))
    ensures !r.didMerge ==> r.contents == src && !r.didClear
    ensures r.didClear ==> gen.removeGenerated(src, tag).Some? && r.contents != ""
  {
    var header := gen.headerComment(newSrc, tag, comment);
    if !Includes(src, header) then
      var sanitizedTarget := gen.removeGenerated(src, tag);
      var contentsToAdd := GeneratedBlock(header, newSrc, tag, comment);
      MergeResults(
        match sanitizedTarget { case Some(s) => s case None => src + contentsToAdd },
        true,
        Truthy(sanitizedTarget))
    else
      MergeResults(src, false, false)
  }

  /** Nothing to clear: the block lands at the very end of `src`, and the
      result then holds the header. */
  lemma AppendAtEnd(src: string, newSrc: string, tag: string, comment: string, gen: Codegen)
    requires !Includes(src, gen.headerComment(newSrc, tag, comment))
    requires gen.removeGenerated(src, tag).None?
    ensures var r := AppendContents(src, newSrc, tag, comment, gen);
      r.contents == src + GeneratedBlock(gen.headerComment(newSrc, tag, comment), newSrc, tag, comment) &&
      r.didMerge && !r.didClear &&
      Includes(r.contents, gen.headerComment(newSrc, tag, comment))
  {
    var header := gen.headerComment(newSrc, tag, comment);
    var tail := "\n" + newSrc + "\n" + comment + " @generated end " + tag;
    assert src + GeneratedBlock(header, newSrc, tag, comment) == src + header + tail;
    IncludesMiddle(src, header, tail);
  }

  /** An earlier block was cleared: the result is exactly the cleared text,
      and `didClear` is its truthiness, so an empty result reports false. */
  lemma ClearedReplacesAll(src: string, newSrc: string, tag: string, comment: string, gen: Codegen)
    requires !Includes(src, gen.headerComment(newSrc, tag, comment))
    requires gen.removeGenerated(src, tag).Some?
    ensures var r := AppendContents(src, newSrc, tag, comment, gen);
      r.contents == gen.removeGenerated(src, tag).value && r.didMerge &&
      r.didClear == (gen.removeGenerated(src, tag).value != "")
  {
  }

  /** Once the header is in place a second run is a no-op. That holds when
      it was already there or the block was appended at the end. */
  lemma AppendIdempotent(src: string, newSrc: string, tag: string, comment: string, gen: Codegen)
    requires Includes(src, gen.headerComment(newSrc, tag, comment)) || gen.removeGenerated(src, tag).None?
    ensures var once := AppendContents(src, newSrc, tag, comment, gen).contents;
      AppendContents(once, newSrc, tag, comment, gen) == MergeResults(once, false, false)
  {
    if !Includes(src, gen.headerComment(newSrc, tag, comment)) {
      AppendAtEnd(src, newSrc, tag, comment, gen);
    }
  }

  /** The build.gradle edit: the maven block under its own tag, with `//` comments. */
  function AddCameraImport(src: string, gen: Codegen): (r: MergeResults)
    ensures r.didMerge <==> !Includes(src, gen.headerComment(GradleMaven, ImportTag, GradleComment))
    ensures !r.didMerge ==> r.contents == src
    ensures r.didMerge && gen.removeGenerated(src, ImportTag).None? ==>
      r.contents == src + GeneratedBlock(gen.headerComment(GradleMaven, ImportTag, GradleComment), GradleMaven, ImportTag, "//")
  {
    AppendContents(src, GradleMaven, ImportTag, GradleComment, gen)
  }

  /** Re-running the build.gradle edit on its own output changes nothing,
      unless the first run only cleared an older block. */
  lemma AddCameraImportIdempotent(src: string, gen: Codegen)
    requires Includes(src, gen.headerComment(GradleMaven, ImportTag, GradleComment))
      || gen.removeGenerated(src, ImportTag).None?
    ensures var once := AddCameraImport(src, gen).contents;
      AddCameraImport(once, gen) == MergeResults(once, false, false)
  {
    AppendIdempotent(src, GradleMaven, ImportTag, GradleComment, gen);
  }

  /** The `modResults` of the project build.gradle mod. */
  class ProjectBuildGradle {
    var language: string
    var contents: string

    constructor (lang: string, text: string)
      ensures language == lang && contents == text
    {
      language := lang;
      contents := text;
    }

    /** The gradle mod callback: only a Groovy build file is edited; any
        other language throws the returned message and leaves it as is. */
    method ApplyCameraImport(gen: Codegen) returns (thrown: Option<string>)
      modifies this`contents
      ensures language == "groovy" ==> thrown == None && contents == AddCameraImport(old(contents), gen).contents
      ensures language != "groovy" ==> thrown == Some(NotGroovyMessage) && contents == old(contents)
    {
      if language == "groovy" {
        contents := AddCameraImport(contents, gen).contents;
        thrown := None;
      } else {
        thrown := Some(NotGroovyMessage);
      }
    }
  }

  // ---------------------------------------------------------------------
  // Info.plist

  type Dict = map<string, string>

  function Lookup(d: Dict, key: string): Option<string> {
    if key in d then Some(d[key]) else None
  }

  /** `option || existing || default`: the first non-empty one wins. */
  function Fallback(option: Option<string>, existing: Option<string>, default: string): (r: string)
    ensures Truthy(option) ==> r == option.value
    ensures !Truthy(option) && Truthy(existing) ==> r == existing.value
    ensures !Truthy(option) && !Truthy(existing) ==> r == default
    ensures default != "" ==> r != ""
  {
    JsOr(JsOr(option, existing), Some(default)).GetOr(default)
  }

  datatype PluginOptions = PluginOptions(cameraPermission: Option<string>, microphonePermission: Option<string>)

  /** The `ios` section of the app config: only the parts the plugin reads. */
  datatype IosConfig = IosConfig(bundleIdentifier: Option<string>, infoPlist: Option<Dict>)

  /** The two usage strings, each by `Fallback` against the dictionary's own value. */
  function WithUsageDescriptions(d: Dict, opts: PluginOptions): (r: Dict)
    ensures r.Keys == d.Keys + {CameraKey, MicrophoneKey}
    ensures forall k :: k in d && k != CameraKey && k != MicrophoneKey ==> r[k] == d[k]
    ensures r[CameraKey] == Fallback(opts.cameraPermission, Lookup(d, CameraKey), CameraUsage)
    ensures r[MicrophoneKey] == Fallback(opts.microphonePermission, Lookup(d, MicrophoneKey), MicrophoneUsage)
  {
    var withCamera := d[CameraKey := Fallback(opts.cameraPermission, Lookup(d, CameraKey), CameraUsage)];
    withCamera[MicrophoneKey := Fallback(opts.microphonePermission, Lookup(withCamera, MicrophoneKey), MicrophoneUsage)]
  }

  /** A JavaScript template literal of a possibly missing string. */
  function TemplateText(v: Option<string>): string {
    match v
    case Some(s) => s
    case None => "undefined"
  }

  /** The app group keeps any non-empty value, else becomes "group." and the bundle id. */
  function GroupIdentifier(d: Dict, bundleIdentifier: Option<string>): (r: string)
    ensures Truthy(Lookup(d, GroupKey)) ==> r == d[GroupKey]
    ensures !Truthy(Lookup(d, GroupKey)) ==> r == "group." + TemplateText(bundleIdentifier)
  {
    JsOr(Lookup(d, GroupKey), Some("group." + TemplateText(bundleIdentifier))).GetOr("")
  }

  /** The `ios` section after the plugin: created empty when missing, with
      an `infoPlist` created empty when missing, and three keys set. */
  function ConfiguredIos(ios: Option<IosConfig>, opts: PluginOptions): (r: IosConfig)
    ensures ios.Some? ==> r.bundleIdentifier == ios.value.bundleIdentifier
    ensures ios.None? ==> r.bundleIdentifier == None
    ensures r.infoPlist.Some?
    ensures var old_ := if ios.Some? && ios.value.infoPlist.Some? then ios.value.infoPlist.value else map[];
      var plist := r.infoPlist.value;
      plist.Keys == old_.Keys + {CameraKey, MicrophoneKey, GroupKey} &&
      (forall k :: k in old_ && k != CameraKey && k != MicrophoneKey && k != GroupKey ==> plist[k] == old_[k]) &&
      plist[CameraKey] == Fallback(opts.cameraPermission, Lookup(old_, CameraKey), CameraUsage) &&
      plist[MicrophoneKey] == Fallback(opts.microphonePermission, Lookup(old_, MicrophoneKey), MicrophoneUsage) &&
      plist[GroupKey] == GroupIdentifier(old_, r.bundleIdentifier)
  {
    var section := ios.GetOr(IosConfig(None, None));
    var plist := WithUsageDescriptions(section.infoPlist.GetOr(map[]), opts);
    section.(infoPlist := Some(plist[GroupKey := GroupIdentifier(plist, section.bundleIdentifier)]))
  }

  /** The app config as the Info.plist mod callback sees it. */
  class InfoPlistConfig {
    var modResults: Dict
    var ios: Option<IosConfig>

    constructor (plist: Dict, section: Option<IosConfig>)
      ensures modResults == plist && ios == section
    {
      modResults := plist;
      ios := section;
    }

    /** The Info.plist mod callback, assigning in place. */
    method ApplyInfoPlist(opts: PluginOptions)
      modifies this
      ensures modResults == WithUsageDescriptions(old(modResults), opts)
      ensures ios == Some(ConfiguredIos(old(ios), opts))
    {
      modResults := modResults[CameraKey := Fallback(opts.cameraPermission, Lookup(modResults, CameraKey), CameraUsage)];
      modResults := modResults[MicrophoneKey := Fallback(opts.microphonePermission, Lookup(modResults, MicrophoneKey), MicrophoneUsage)];

      if ios.None? {
        ios := Some(IosConfig(None, None));
      }
      if ios.value.infoPlist.None? {
        ios := Some(ios.value.(infoPlist := Some(map[])));
      }

      var plist := ios.value.infoPlist.value;
      plist := plist[CameraKey := Fallback(opts.cameraPermission, Lookup(plist, CameraKey), CameraUsage)];
      plist := plist[MicrophoneKey := Fallback(opts.microphonePermission, Lookup(plist, MicrophoneKey), MicrophoneUsage)];
      plist := plist[GroupKey := JsOr(Lookup(plist, GroupKey), Some("group." + TemplateText(ios.value.bundleIdentifier))).GetOr("")];
      ios := Some(ios.value.(infoPlist := Some(plist)));
    }
  }

  /** Running the usage-string step on its own output changes nothing. */
  lemma UsageDescriptionsIdempotent(d: Dict, opts: PluginOptions)
    ensures WithUsageDescriptions(WithUsageDescriptions(d, opts), opts) == WithUsageDescriptions(d, opts)
  {
  }

  /** Running the whole Info.plist step again, with the same options, changes nothing. */
  lemma ConfiguredIosIdempotent(ios: Option<IosConfig>, opts: PluginOptions)
    ensures ConfiguredIos(Some(ConfiguredIos(ios, opts)), opts) == ConfiguredIos(ios, opts)
  {
    var section := ios.GetOr(IosConfig(None, None));
    var plist := WithUsageDescriptions(section.infoPlist.GetOr(map[]), opts);
    var final := plist[GroupKey := GroupIdentifier(plist, section.bundleIdentifier)];
    var again := WithUsageDescriptions(final, opts);
    assert again == final by {
      assert Lookup(final, CameraKey) == Some(final[CameraKey]);
      assert Lookup(final, MicrophoneKey) == Some(final[MicrophoneKey]);
      forall k | k in final
        ensures again[k] == final[k]
      {
      }
    }
    assert GroupIdentifier(final, section.bundleIdentifier) == final[GroupKey];
    assert final[GroupKey := final[GroupKey]] == final;
  }
}
