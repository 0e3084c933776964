# Video tag renderer, modelled in Dafny

This project models the file renderer that turns a managed video file into an
HTML5 `<video>` element. Three operations are modelled:

- its priority among the file renderers;
- which MIME types it accepts;
- the markup it builds from the file, the requested width and height, the caller's
  options and the "relative paths" flag.

The markup is built in this order:

- the autoplay fallback, which reads a file reference's stored `autoplay` property;
- `width` and `height`, from the integer coercion of the arguments;
- the `controls`, `autoplay`, `muted` and `loop` flags;
- the explicit poster and the poster related through the metadata;
- the fixed `oncontextmenu` attribute;
- the `<track>` elements built from the related track records;
- the allow-listed pass-through options, with escaped values;
- the fixed `data-setup` attribute;
- the final `<video …><source …>…</video>` assembly.

The project has four modules:

- `Php` (`php.dfy`) models the PHP semantics the renderer relies on: scalar values, `empty`, `isset` on array keys, the `(int)` and `(string)` casts, and `implode`.
- `Html` (`html.dfy`) models `htmlspecialchars` with the PHP 7 default flags (`ENT_COMPAT | ENT_HTML401`). The characters `&`, `"`, `<` and `>` become entities and the single quote is kept. A decoder proves that escaping loses nothing.
- `VideoTagRenderer` (`video_tag_renderer.dfy`) holds the data model, `Priority` and `CanRender`, and the specification functions:
  - `EffectiveOptions`;
  - `SizeAttributes`, `FlagAttributes`, `PosterAttributes` and `PassThrough`, which together make `Attributes`;
  - `ResolveTrack`, `TrackList` and `TracksMarkup`;
  - `Envelope` and `RenderedHtml`.

  It also holds `render` as an imperative method. `Render` applies the autoplay fallback to its local copy of the options (`AutoplayOption`). It then builds the attribute list step by step, with one method per stage. `TrackElements` and `AddPassThrough` are the two `foreach` loops, with invariants relating the partial result to the prefix of the list processed so far. Each method is proved equal to its specification function.
- `VideoTagProperties` (`video_tag_properties.dfy`) proves what the renderer promises about these functions:
  - which attributes appear under each name, when, and with which value (`Named` filters the list by name);
  - the fixed order of the attributes (`Rank`, `Ordered`);
  - the track elements;
  - the overall shape of the markup;
  - the end-to-end case of an MP4 file of 320 by 240.

The collaborators become input data:

- The file is a `MediaFile` record. Its `autoplayProperty` is `None` when the file is not a file reference. It carries both forms of the public URL, and the relative-paths flag picks one.
- The poster and track relation lookups are the `posterUrls` and `trackReferences` sequences of `OriginalFile`, in lookup order.
- The `sys_language` query is a map from language uid to title and ISO code.
- The translated default label and the site's ISO code come in a `TrackContext`.

An explicit poster option does not replace the related poster: lines 104-118 of `Classes/Resource/Rendering/VideoTagRenderer.php` append both, and `PosterRule` proves that both appear, explicit one first. The track kind uses PHP truthiness (`?:`, line 162), so an empty or `"0"` track type gives `subtitles`, as an unset one does.

## Model

| member | source | states |
|---|---|---|
| VideoTagRenderer.Priority | Classes/Resource/Rendering/VideoTagRenderer.php:47-50 | the priority is always 1 |
| VideoTagRenderer.CanRender | Classes/Resource/Rendering/VideoTagRenderer.php:58-61 | true exactly when the MIME type is `video/mp4`, `video/webm`, `video/ogg` or `application/ogg` (the list of line 36), compared strictly |
| VideoTagRenderer.AutoplayFallback | Classes/Resource/Rendering/VideoTagRenderer.php:77-82 | the fallback touches only the `autoplay` key; an explicitly set option is kept as it is; the resulting option is non-empty exactly when the explicit option is, or, with none set, when the file is a reference whose stored property is non-empty |
| VideoTagRenderer.AutoplayOption | Classes/Resource/Rendering/VideoTagRenderer.php:76-82 | the fallback as written, on `render`'s local copy of the options, yields `EffectiveOptions`, about which `AutoplayFallback` states the rules |
| VideoTagRenderer.SizeAttributeList | Classes/Resource/Rendering/VideoTagRenderer.php:85-90 | the width and height texts built are those of `SizeAttributes` |
| VideoTagRenderer.AddFlagAttributes | Classes/Resource/Rendering/VideoTagRenderer.php:91-102 | appends exactly the texts of `FlagAttributes` of the effective options |
| VideoTagRenderer.AddPosterAttributes | Classes/Resource/Rendering/VideoTagRenderer.php:104-123 | appends the explicit poster, then the first related poster, then `oncontextmenu`, as `PosterAttributes` says |
| VideoTagRenderer.TrackElement | Classes/Resource/Rendering/VideoTagRenderer.php:136-162 | the loop body builds the element of the resolved track (`ResolveTrack`) |
| VideoTagRenderer.TrackElements | Classes/Resource/Rendering/VideoTagRenderer.php:125-164 | the track loop yields `TracksMarkup`: nothing without a `tracks` property, otherwise the elements of all related references in lookup order |
| VideoTagRenderer.AddPassThrough | Classes/Resource/Rendering/VideoTagRenderer.php:167-171 | the allow-list loop appends exactly the texts of `PassThrough` over the allow-list |
| VideoTagRenderer.Render | Classes/Resource/Rendering/VideoTagRenderer.php:73-181 | the imperative render returns `RenderedHtml` of its inputs |
| VideoTagProperties.SizeRule | Classes/Resource/Rendering/VideoTagRenderer.php:85-90 | `width="N"` appears once exactly when the integer coercion N of the width is positive, and none otherwise; it is then the first attribute; `height` likewise |
| VideoTagProperties.SizeWithSuffix | Classes/Resource/Rendering/VideoTagRenderer.php:85-90 | a width such as `"200m"` (a positive number followed by a unit suffix, that is a text not starting with a digit, a decimal point or an exponent) gives `width="200"` |
| Php.DecimalRoundTrip | Classes/Resource/Rendering/VideoTagRenderer.php:85-86 | `(int)` of the decimal text of any integer, followed by any text not starting with a digit, a decimal point or an exponent, is that integer |
| VideoTagProperties.ControlsRule | Classes/Resource/Rendering/VideoTagRenderer.php:91-93 | `controls` appears once, unless the caller set the option and it is empty, in which case it is absent |
| VideoTagProperties.AutoplayRule | Classes/Resource/Rendering/VideoTagRenderer.php:77-96 | with the option set, `autoplay` appears exactly when the option is non-empty, whatever the stored property says; with it unset, exactly when the file is a reference whose stored property is non-empty |
| VideoTagProperties.MutedLoopRule | Classes/Resource/Rendering/VideoTagRenderer.php:97-102 | `muted` and `loop` each appear once exactly when their option is non-empty |
| VideoTagProperties.PosterRule | Classes/Resource/Rendering/VideoTagRenderer.php:104-120 | the `poster` attributes are the explicit option, unescaped, when it is non-empty, followed by the first related poster when the metadata has a poster property and the lookup is non-empty; both can appear |
| VideoTagProperties.FixedAttributesRule | Classes/Resource/Rendering/VideoTagRenderer.php:123-172 | `oncontextmenu="return false;"` and `data-setup="{}"` appear exactly once each, and `data-setup` is the last attribute |
| VideoTagProperties.PassThroughRule | Classes/Resource/Rendering/VideoTagRenderer.php:167-171 | each allow-listed key appears once, with its value escaped, exactly when its option is non-empty, and none otherwise |
| VideoTagProperties.EscapedTitleExample | Classes/Resource/Rendering/VideoTagRenderer.php:167-171 | a `title` option holding a tag such as `<script>` reaches the video tag as `&lt;script&gt;` |
| VideoTagProperties.PassThroughOrdered | Classes/Resource/Rendering/VideoTagRenderer.php:167-171 | the pass-through attributes follow the order of the key list, and each is named after a key |
| VideoTagProperties.AttributeOrder | Classes/Resource/Rendering/VideoTagRenderer.php:84-172 | the attributes always come in the order width, height, controls, autoplay, muted, loop, posters, oncontextmenu, the allow-list in its order, data-setup, and none has any other name |
| VideoTagProperties.TrackListAt | Classes/Resource/Rendering/VideoTagRenderer.php:134-163 | the i-th resolved track is the i-th related reference, resolved |
| VideoTagProperties.TracksInLookupOrder | Classes/Resource/Rendering/VideoTagRenderer.php:134-163 | the track markup of a concatenation of lookup results is the markup of the first part followed by that of the second |
| VideoTagProperties.SingleTrack | Classes/Resource/Rendering/VideoTagRenderer.php:134-162 | one reference gives exactly one `<track>` element |
| VideoTagProperties.TracksRule | Classes/Resource/Rendering/VideoTagRenderer.php:125-164 | without a `tracks` property the tracks are empty; with one, there is one resolved track per related reference, each the reference resolved |
| VideoTagProperties.ResolveTrackRule | Classes/Resource/Rendering/VideoTagRenderer.php:136-162 | the kind is the track type, or `subtitles` when it is empty, and is never empty itself; label and `srclang` are the language row's title and ISO code when the uid is above 0 and has a row, the defaults otherwise; `src` is the reference's URL |
| Php.NonEmptyToStr | Classes/Resource/Rendering/VideoTagRenderer.php:162 | a non-empty value never prints as `""` or `"0"` |
| VideoTagProperties.MarkupShape | Classes/Resource/Rendering/VideoTagRenderer.php:174-180 | the markup is always `<video ` + the attribute texts joined by single spaces + `><source src="` + the escaped URL + `" type="` + the MIME type + `">` + the tracks + `</video>` |
| VideoTagProperties.PlainMp4Example | Classes/Resource/Rendering/VideoTagRenderer.php:73-181 | an MP4 file of 320 by 240 with `controls` set, no poster and no tracks, and a URL needing no escaping, renders as `<video width="320" height="240" controls oncontextmenu="return false;" data-setup="{}"><source src="URL" type="video/mp4"></video>` |
| Html.HtmlSpecialChars | Classes/Resource/Rendering/VideoTagRenderer.php:177 | the escaped text holds no `"`, `<` or `>`, so it cannot end the attribute value or open a tag |
| Html.UnescapeRoundTrip | Classes/Resource/Rendering/VideoTagRenderer.php:177 | decoding the four entities gives the original text back |
| Html.PlainTextUnchanged | Classes/Resource/Rendering/VideoTagRenderer.php:177 | text without `&`, `"`, `<` or `>` is left as it is |
| Html.EscapeAppend | Classes/Resource/Rendering/VideoTagRenderer.php:169 | escaping works character by character, so it distributes over concatenation |
| Html.TagTextEscaped | Classes/Resource/Rendering/VideoTagRenderer.php:169 | `<name>` escapes to `&lt;name&gt;` when the name has no special characters |

## Left out

- The `sys_language` query (Classes/Resource/Rendering/VideoTagRenderer.php:143-154) is a database call. The model replaces it with a map from uid to `(title, isoCode)`, and a missing key stands for a query that finds no row.
- `FileRepository::findByRelation` (lines 110-112, 129-131) and the file API (`getPublicUrl`, `getOriginalFile`, `_getMetaData`, `getProperty`) are host-framework objects. Their results are fields of the input records.
- `LocalizationUtility::translate` and `$GLOBALS['TSFE']->sys_language_isocode` (lines 138-139) are ambient framework state. They are parameters in `TrackContext`.
- `instanceof FileReference` (line 77) is the `Option` of the stored autoplay property: `None` for a file that is not a reference.
- Every file is taken to have an original file with metadata. Lines 108 and 126 call `getOriginalFile()` on any file, but the declared `FileInterface` (line 73) does not promise that method, so a file without one is not modelled.
- `track_language` is taken to be an integer. A non-numeric stored value compared with `> 0` is not modelled.
- `Value` has no floats, arrays or objects. Options or properties of those types are not modelled.
- `Php.StrToInt`: does not model the exponent forms that PHP 7.1 and later read in `(int)` of a numeric string (such as `"1e3"`), nor saturation at the platform's integer bounds, because widths are written as digits with an optional unit suffix.
- `Html.HtmlSpecialChars`: follows PHP 7's default flags. It does not model PHP 8.1's defaults, which also escape `'`, nor the handling of invalid UTF-8, because strings here are sequences of characters, not bytes.
- HTML validity is not judged. The duplicate `poster` attribute and the unescaped poster option, poster URL and track values are reproduced as written.
- `VideoTagProperties.PlainMp4Example`: states the expected markup with the attribute texts passed to `implode`, rather than as one literal string. The join itself follows from `Implode`'s definition.
