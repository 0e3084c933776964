/** The renderer for the HTML5 `<video>` element: which files it accepts, its
    priority among the file renderers, and the markup it builds from a file,
    the requested size and the caller's options. */
module VideoTagRenderer {
  import opened Php
  import opened Html

  datatype Option<+T> = None | Some(value: T)

  /** A row of the `sys_language` table, as far as the track loop reads it. */
  datatype LanguageRecord = LanguageRecord(title: string, isoCode: string)

  /** A file reference related to the video's metadata through its `tracks`
      field: its `track_language` (a language uid), its `track_type` and its
      public URL. */
  datatype TrackReference = TrackReference(trackLanguage: int, trackType: Value, publicUrl: string)

  /** What the renderer reads from the original file: the `poster` and
      `tracks` properties of its metadata, and what the relation lookup on each
      of those fields returns, in lookup order (for the poster, the public URLs
      of the related references). */
  datatype OriginalFile = OriginalFile(
    posterProperty: Value,
    posterUrls: seq<string>,
    tracksProperty: Value,
    trackReferences: seq<TrackReference>)

  /** The file handed to the renderer. `autoplayProperty` is `None` when the
      file is not a file reference, and otherwise the reference's stored
      `autoplay` property (`Null` when it has none). The public URL comes in
      both of the forms `getPublicUrl` can give. */
  datatype MediaFile = MediaFile(
    mimeType: string,
    absoluteUrl: string,
    relativeUrl: string,
    autoplayProperty: Option<Value>,
    original: OriginalFile)

  /** What the track loop takes from its surroundings: the translated default
      label, the current site's ISO code, and the `sys_language` rows by uid. */
  datatype TrackContext = TrackContext(
    defaultLabel: string,
    defaultIsoCode: string,
    languages: map<int, LanguageRecord>)

  /** An attribute of the video tag: a bare flag, or `name="value"`. */
  datatype Attribute = Flag(name: string) | Pair(name: string, value: string)

  /** The four attributes of a `<track>` element. */
  datatype Track = Track(labelText: string, kind: string, srclang: string, src: string)

  /** The MIME types the video element is given. */
  const PossibleMimeTypes: seq<string> := ["video/mp4", "video/webm", "video/ogg", "application/ogg"]

  /** The options copied into the tag as they are, escaped, in this order. */
  const PassThroughKeys: seq<string> :=
    ["class", "dir", "id", "lang", "style", "title", "accesskey", "tabindex", "onclick"]

  const ContextMenu: Attribute := Pair("oncontextmenu", "return false;")
  const DataSetup: Attribute := Pair("data-setup", "{}")

  // ---------------------------------------------------------------------
  // Selection of the renderer

  /** The lowest priority on the scale 1 to 100, so that any more specific
      renderer wins. */
  function Priority(): (p: int)
    ensures p == 1
  {
    1
  }

  /** Strict membership of the MIME type in the list above. */
  function CanRender(file: MediaFile): (r: bool)
    ensures r <==> (file.mimeType == "video/mp4" || file.mimeType == "video/webm"
                    || file.mimeType == "video/ogg" || file.mimeType == "application/ogg")
  {
    file.mimeType in PossibleMimeTypes
  }

  // ---------------------------------------------------------------------
  // The attribute list

  function PublicUrl(file: MediaFile, relative: bool): string {
    if relative then file.relativeUrl else file.absoluteUrl
  }

  /** The options after the autoplay fallback: a file reference's stored
      `autoplay` property fills in the option when the caller left it unset. */
  function EffectiveOptions(options: Options, file: MediaFile): Options {
    if !IsSet(options, "autoplay") && file.autoplayProperty.Some? && file.autoplayProperty.value != Null
    then options["autoplay" := file.autoplayProperty.value]
    else options
  }

  /** The fallback touches the `autoplay` option only, never overrides an
      explicit one, and the option ends up non-empty exactly when the explicit
      option is, or, with none set, when the reference's property is. */
  lemma AutoplayFallback(options: Options, file: MediaFile)
    ensures var o := EffectiveOptions(options, file);
            && o - {"autoplay"} == options - {"autoplay"}
            && (IsSet(options, "autoplay") ==> o == options)
            && (EmptyAt(o, "autoplay") <==>
                  if IsSet(options, "autoplay") then Empty(options["autoplay"])
                  else file.autoplayProperty.None? || Empty(file.autoplayProperty.value))
  {
  }

  /** `attrs`, with `a` appended when `c` holds. */
  function AddIf(attrs: seq<Attribute>, c: bool, a: Attribute): seq<Attribute> {
    if c then attrs + [a] else attrs
  }

  /** Width and height, each when its integer coercion is positive. */
  function SizeAttributes(width: Value, height: Value): seq<Attribute> {
    var w := AddIf([], IntCast(width) > 0, Pair("width", Decimal(IntCast(width))));
    AddIf(w, IntCast(height) > 0, Pair("height", Decimal(IntCast(height))))
  }

  /** The four boolean flags: `controls` unless set and empty, the others when
      not empty. */
  function FlagAttributes(o: Options): seq<Attribute> {
    var c := AddIf([], !IsSet(o, "controls") || !EmptyAt(o, "controls"), Flag("controls"));
    var a := AddIf(c, !EmptyAt(o, "autoplay"), Flag("autoplay"));
    var m := AddIf(a, !EmptyAt(o, "muted"), Flag("muted"));
    AddIf(m, !EmptyAt(o, "loop"), Flag("loop"))
  }

  /** The explicit poster option, then the first poster related to the
      metadata: the two are independent, so both can appear. */
  function PosterAttributes(o: Options, original: OriginalFile): seq<Attribute> {
    (if !EmptyAt(o, "poster") then [Pair("poster", ToStr(o["poster"]))] else [])
    + (if !Empty(original.posterProperty) && |original.posterUrls| > 0
       then [Pair("poster", original.posterUrls[0])] else [])
  }

  /** The non-empty options among `keys`, in the order of `keys`. */
  function PassThrough(o: Options, keys: seq<string>): seq<Attribute> {
    if keys == [] then []
    else
      var key := keys[|keys| - 1];
      PassThrough(o, keys[..|keys| - 1])
      + if !EmptyAt(o, key) then [Pair(key, HtmlSpecialChars(ToStr(o[key])))] else []
  }

  /** The attributes of the video tag, in the order the renderer adds them. */
  function Attributes(file: MediaFile, width: Value, height: Value, options: Options): seq<Attribute> {
    var o := EffectiveOptions(options, file);
    SizeAttributes(width, height) + FlagAttributes(o) + (PosterAttributes(o, file.original) + [ContextMenu])
    + PassThrough(o, PassThroughKeys) + [DataSetup]
  }

  function Show(a: Attribute): string {
    match a
    case Flag(name) => name
    case Pair(name, value) => name + "=\"" + value + "\""
  }

  function Shown(attrs: seq<Attribute>): (r: seq<string>)
    ensures |r| == |attrs|
  {
    if attrs == [] then [] else Shown(attrs[..|attrs| - 1]) + [Show(attrs[|attrs| - 1])]
  }

  lemma ShownSnoc(attrs: seq<Attribute>, a: Attribute)
    ensures Shown(attrs + [a]) == Shown(attrs) + [Show(a)]
  {
    assert (attrs + [a])[..|attrs|] == attrs;
  }

  lemma {:induction false} ShownAppend(a: seq<Attribute>, b: seq<Attribute>)
    ensures Shown(a + b) == Shown(a) + Shown(b)
    decreases |b|
  {
    if b == [] {
      assert a + b == a;
    } else {
      var c := b[..|b| - 1];
      var last := b[|b| - 1];
      assert a + b == (a + c) + [last];
      assert b == c + [last];
      ShownSnoc(a + c, last);
      ShownSnoc(c, last);
      ShownAppend(a, c);
    }
  }

  /** Appending an attribute's text to the texts of a list shows the list
      with the attribute appended. */
  lemma ShownStep(texts: seq<string>, prefix: seq<string>, attrs: seq<Attribute>, text: string, a: Attribute)
    requires texts == prefix + Shown(attrs) && text == Show(a)
    ensures texts + [text] == prefix + Shown(attrs + [a])
  {
    ShownSnoc(attrs, a);
  }

  /** The attribute texts, appended piece by piece as the renderer does, are
      the shown attribute list. */
  lemma AttributesShown(file: MediaFile, width: Value, height: Value, options: Options, o: Options,
                        sizes: seq<string>, withFlags: seq<string>, withPosters: seq<string>,
                        withPassed: seq<string>, texts: seq<string>)
    requires o == EffectiveOptions(options, file)
    requires sizes == Shown(SizeAttributes(width, height))
    requires withFlags == sizes + Shown(FlagAttributes(o))
    requires withPosters == withFlags + Shown(PosterAttributes(o, file.original) + [ContextMenu])
    requires withPassed == withPosters + Shown(PassThrough(o, PassThroughKeys))
    requires texts == withPassed + ["data-setup=\"{}\""]
    ensures texts == Shown(Attributes(file, width, height, options))
  {
    var s := SizeAttributes(width, height);
    var f := FlagAttributes(o);
    var p := PosterAttributes(o, file.original) + [ContextMenu];
    var pt := PassThrough(o, PassThroughKeys);
    assert Attributes(file, width, height, options) == s + f + p + pt + [DataSetup];
    AttributePrefixes();
    ShownAppend(s, f);
    ShownAppend(s + f, p);
    ShownAppend(s + f + p, pt);
    ShownSnoc(s + f + p + pt, DataSetup);
  }

  // ---------------------------------------------------------------------
  // The track elements

  /** Label and language come from the `sys_language` row when the track names
      a language uid above 0 that has one, and are the defaults otherwise; the
      kind falls back to `subtitles` when the track type is empty. */
  function ResolveTrack(t: TrackReference, ctx: TrackContext): Track {
    var found := t.trackLanguage > 0 && t.trackLanguage in ctx.languages;
    Track(
      if found then ctx.languages[t.trackLanguage].title else ctx.defaultLabel,
      if !Empty(t.trackType) then ToStr(t.trackType) else "subtitles",
      if found then ctx.languages[t.trackLanguage].isoCode else ctx.defaultIsoCode,
      t.publicUrl)
  }

  function ShowTrack(t: Track): string {
    "<track label=\"" + t.labelText + "\" kind=\"" + t.kind + "\" srclang=\"" + t.srclang
    + "\" src=\"" + t.src + "\">"
  }

  /** The resolved tracks of the references, in lookup order. */
  function TrackList(refs: seq<TrackReference>, ctx: TrackContext): (r: seq<Track>)
    ensures |r| == |refs|
  {
    if refs == [] then [] else TrackList(refs[..|refs| - 1], ctx) + [ResolveTrack(refs[|refs| - 1], ctx)]
  }

  function ShowTracks(ts: seq<Track>): string {
    if ts == [] then "" else ShowTracks(ts[..|ts| - 1]) + ShowTrack(ts[|ts| - 1])
  }

  /** One more reference adds its element at the end. */
  lemma ShowTracksStep(refs: seq<TrackReference>, i: nat, tracks: string, element: string, ctx: TrackContext)
    requires i < |refs|
    requires tracks == ShowTracks(TrackList(refs[..i], ctx))
    requires element == ShowTrack(ResolveTrack(refs[i], ctx))
    ensures tracks + element == ShowTracks(TrackList(refs[..i + 1], ctx))
  {
    assert refs[..i + 1][..i] == refs[..i];
    var ts := TrackList(refs[..i + 1], ctx);
    assert ts[..i] == TrackList(refs[..i], ctx);
  }

  /** The track elements: none unless the metadata has a `tracks` property. */
  function TracksMarkup(original: OriginalFile, ctx: TrackContext): string {
    if !Empty(original.tracksProperty) then ShowTracks(TrackList(original.trackReferences, ctx)) else ""
  }

  // ---------------------------------------------------------------------
  // The markup

  /** The final `sprintf`: the attribute texts joined by single spaces after
      `<video` (nothing when there are none), the source element with its
      escaped URL and MIME type, then the track elements. */
  function Envelope(attributes: seq<string>, url: string, mimeType: string, tracks: string): string {
    "<video" + (if |attributes| == 0 then "" else " " + Implode(" ", attributes))
    + "><source src=\"" + HtmlSpecialChars(url) + "\" type=\"" + mimeType + "\">"
    + tracks + "</video>"
  }

  /** The HTML the renderer returns. */
  function RenderedHtml(file: MediaFile, width: Value, height: Value, options: Options,
                        relative: bool, ctx: TrackContext): string
  {
    Envelope(Shown(Attributes(file, width, height, options)), PublicUrl(file, relative), file.mimeType,
             TracksMarkup(file.original, ctx))
  }

  /** The literal attribute prefixes the renderer writes, as `Show` writes them. */
  lemma AttributePrefixes()
    ensures "width" + "=\"" == "width=\"" && "height" + "=\"" == "height=\""
    ensures "poster" + "=\"" == "poster=\""
    ensures Show(ContextMenu) == "oncontextmenu=\"return false;\"" && Show(DataSetup) == "data-setup=\"{}\""
  {
  }

  /** Width and height, when their integer coercions are positive. */
  method SizeAttributeList(width: Value, height: Value) returns (attributes: seq<string>)
    ensures attributes == Shown(SizeAttributes(width, height))
  {
    attributes := [];
    ghost var spec: seq<Attribute> := [];  // the attributes `attributes` shows
    if IntCast(width) > 0 {
      var text := "width=\"" + Decimal(IntCast(width)) + "\"";
      ghost var a := Pair("width", Decimal(IntCast(width)));
      AttributePrefixes();
      ShownStep(attributes, [], spec, text, a);
      attributes, spec := attributes + [text], spec + [a];
    }
    if IntCast(height) > 0 {
      var text := "height=\"" + Decimal(IntCast(height)) + "\"";
      ghost var a := Pair("height", Decimal(IntCast(height)));
      AttributePrefixes();
      ShownStep(attributes, [], spec, text, a);
      attributes, spec := attributes + [text], spec + [a];
    }
    assert spec == SizeAttributes(width, height);
  }

  /** The four flags, appended to `attributes` as the options ask for them. */
  method AddFlagAttributes(attributes: seq<string>, opts: Options) returns (result: seq<string>)
    ensures result == attributes + Shown(FlagAttributes(opts))
  {
    result := attributes;
    ghost var spec: seq<Attribute> := [];  // the attributes added so far
    if !IsSet(opts, "controls") || !EmptyAt(opts, "controls") {
      ShownStep(result, attributes, spec, "controls", Flag("controls"));
      result, spec := result + ["controls"], spec + [Flag("controls")];
    }
    ghost var c := spec;
    assert c == AddIf([], !IsSet(opts, "controls") || !EmptyAt(opts, "controls"), Flag("controls"));
    if !EmptyAt(opts, "autoplay") {
      ShownStep(result, attributes, spec, "autoplay", Flag("autoplay"));
      result, spec := result + ["autoplay"], spec + [Flag("autoplay")];
    }
    ghost var a := spec;
    assert a == AddIf(c, !EmptyAt(opts, "autoplay"), Flag("autoplay"));
    if !EmptyAt(opts, "muted") {
      ShownStep(result, attributes, spec, "muted", Flag("muted"));
      result, spec := result + ["muted"], spec + [Flag("muted")];
    }
    ghost var m := spec;
    assert m == AddIf(a, !EmptyAt(opts, "muted"), Flag("muted"));
    if !EmptyAt(opts, "loop") {
      ShownStep(result, attributes, spec, "loop", Flag("loop"));
      result, spec := result + ["loop"], spec + [Flag("loop")];
    }
    assert spec == AddIf(m, !EmptyAt(opts, "loop"), Flag("loop"));
  }

  /** The explicit poster, the related poster and the context-menu attribute,
      appended to `attributes`. */
  method AddPosterAttributes(attributes: seq<string>, opts: Options, original: OriginalFile)
    returns (result: seq<string>)
    ensures result == attributes + Shown(PosterAttributes(opts, original) + [ContextMenu])
  {
    result := attributes;
    ghost var spec: seq<Attribute> := [];  // the attributes added so far
    if !EmptyAt(opts, "poster") {
      var text := "poster=\"" + ToStr(opts["poster"]) + "\"";
      ghost var a := Pair("poster", ToStr(opts["poster"]));
      AttributePrefixes();
      ShownStep(result, attributes, spec, text, a);
      result, spec := result + [text], spec + [a];
    }
    if !Empty(original.posterProperty) {
      var fileObjects := original.posterUrls;
      if |fileObjects| > 0 {
        var text := "poster=\"" + fileObjects[0] + "\"";
        ghost var a := Pair("poster", fileObjects[0]);
        AttributePrefixes();
        ShownStep(result, attributes, spec, text, a);
        result, spec := result + [text], spec + [a];
      }
    }
    assert spec == PosterAttributes(opts, original);
    AttributePrefixes();
    ShownStep(result, attributes, spec, "oncontextmenu=\"return false;\"", ContextMenu);
    result := result + ["oncontextmenu=\"return false;\""];
  }

  /** The body of the track loop: the language lookup, the kind fallback and
      the element. */
  method TrackElement(fileObject: TrackReference, ctx: TrackContext) returns (element: string)
    ensures element == ShowTrack(ResolveTrack(fileObject, ctx))
  {
    var trackLanguage := fileObject.trackLanguage;
    var trackType := fileObject.trackType;
    var languageTitle := ctx.defaultLabel;
    var isoCode := ctx.defaultIsoCode;
    if trackLanguage > 0 {
      if trackLanguage in ctx.languages {
        var languageRecord := ctx.languages[trackLanguage];
        languageTitle := languageRecord.title;
        isoCode := languageRecord.isoCode;
      }
    }
    var kind := if !Empty(trackType) then ToStr(trackType) else "subtitles";
    element := "<track label=\"" + languageTitle + "\" kind=\"" + kind + "\" srclang=\""
               + isoCode + "\" src=\"" + fileObject.publicUrl + "\">";
  }

  /** The loop over the track references: one `<track>` element each, in
      lookup order. */
  method TrackElements(original: OriginalFile, ctx: TrackContext) returns (tracks: string)
    ensures tracks == TracksMarkup(original, ctx)
  {
    tracks := "";
    if !Empty(original.tracksProperty) {
      var fileObjects := original.trackReferences;
      var i := 0;
      while i < |fileObjects|
        invariant 0 <= i <= |fileObjects|
        invariant tracks == ShowTracks(TrackList(fileObjects[..i], ctx))
      {
        var element := TrackElement(fileObjects[i], ctx);
        ShowTracksStep(fileObjects, i, tracks, element, ctx);
        tracks := tracks + element;
        i := i + 1;
      }
      assert fileObjects[..i] == fileObjects;
    }
  }

  /** One more key adds its attribute at the end when its option is not empty. */
  lemma PassThroughStep(o: Options, keys: seq<string>, j: nat)
    requires j < |keys|
    ensures PassThrough(o, keys[..j + 1])
            == PassThrough(o, keys[..j])
               + if !EmptyAt(o, keys[j]) then [Pair(keys[j], HtmlSpecialChars(ToStr(o[keys[j]])))] else []
  {
    assert keys[..j + 1][..j] == keys[..j];
  }

  /** The loop over the pass-through keys, appending the non-empty ones with
      escaped values. */
  method AddPassThrough(attributes: seq<string>, opts: Options) returns (result: seq<string>)
    ensures result == attributes + Shown(PassThrough(opts, PassThroughKeys))
  {
    result := attributes;
    var keys := PassThroughKeys;
    var j := 0;
    while j < |keys|
      invariant 0 <= j <= |keys|
      invariant result == attributes + Shown(PassThrough(opts, keys[..j]))
    {
      var key := keys[j];
      PassThroughStep(opts, keys, j);
      if !EmptyAt(opts, key) {
        var attribute := key + "=\"" + HtmlSpecialChars(ToStr(opts[key])) + "\"";
        ShownStep(result, attributes, PassThrough(opts, keys[..j]), attribute,
                  Pair(key, HtmlSpecialChars(ToStr(opts[key]))));
        result := result + [attribute];
      } else {
        assert PassThrough(opts, keys[..j + 1]) == PassThrough(opts, keys[..j]);
      }
      j := j + 1;
    }
    assert keys[..j] == keys;
  }

  /** The autoplay fallback, on the renderer's local copy of the options: a
      file reference's stored `autoplay` property is taken when the caller left
      the option unset. */
  method AutoplayOption(options: Options, file: MediaFile) returns (opts: Options)
    ensures opts == EffectiveOptions(options, file)
  {
    opts := options;
    if !IsSet(opts, "autoplay") && file.autoplayProperty.Some? {
      var autoplay := file.autoplayProperty.value;
      if autoplay != Null {
        opts := opts["autoplay" := autoplay];
      }
    }
  }

  /** The renderer's `render`: the autoplay fallback on a local copy of the
      options, then the attribute list, the track elements, the pass-through
      options and the final markup. */
  method Render(file: MediaFile, width: Value, height: Value, options: Options,
                relative: bool, ctx: TrackContext) returns (html: string)
    ensures html == RenderedHtml(file, width, height, options, relative, ctx)
  {
    var opts := AutoplayOption(options, file);
    var sizes := SizeAttributeList(width, height);
    var attributes := AddFlagAttributes(sizes, opts);
    ghost var withFlags := attributes;
    attributes := AddPosterAttributes(attributes, opts, file.original);
    ghost var withPosters := attributes;
    var tracks := TrackElements(file.original, ctx);
    attributes := AddPassThrough(attributes, opts);
    ghost var withPassed := attributes;
    attributes := attributes + ["data-setup=\"{}\""];
    AttributesShown(file, width, height, options, opts, sizes, withFlags, withPosters, withPassed, attributes);

    html := Envelope(attributes, PublicUrl(file, relative), file.mimeType, tracks);
  }
}
